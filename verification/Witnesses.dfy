/** Runs from empty tables in which something one might expect does not happen. */
module Witnesses {
  import opened Basics
  import opened Sorting
  import opened Framing
  import opened Events
  import opened Trust
  import opened BirthWindow
  import opened Replay
  import opened DefectBook
  import opened IntegrityChain
  import opened RawLog
  import opened Store
  import opened Ingestion
  import opened Projections
  import C = CacheAgreement
  import opened DeliveryOrder
  import opened Release
  import R = ReleaseRuns
  import opened AnalysisReports

  /* ---- one source, and stores that hold given events ---- */

  const ALL_TYPES := {
    "item.registered", "operation.started", "operation.finished", "inspection.result", "machine.state",
    "operator.action", "control_device.invalidated"}

  const SOURCES: map<string, Source> := map["S" := Source("calibration_system", ALL_TYPES, None)]

  const SETTINGS := Config(Keys((b: bytes) => [], (m: Metadata) => []), (e: Event) => [], [])

  const START := Db([], map[], SOURCES, [], [], [], map[], map[], map[], Routes.EMPTY, Book([], []))

  function Send(e: Event): Delivery
  {
    Delivery(Some("S"), Some(e.eventId), None, None, e, e.occurredAt, [], [])
  }

  function Fact(id: string, at: int, item: string, run: Option<string>, p: Payload): Event
  {
    Event(id, "1", at, "S", "calibration_system", None, Some(item), run, p)
  }

  predicate Sendable(e: Event)
  {
    && WellFormed(e) && !e.payload.DeviceInvalidated? && EventType(e.payload) in ALL_TYPES
    && e.sourceId == "S" && e.sourceType == "calibration_system" && e.sequence.None?
  }

  /** The office before anything happened. */
  const OPENED := Office(START, [], [], [], map[])

  /** Some run from empty tables leads to these tables, nothing having been decided yet. */
  ghost predicate Reached(db: Db)
  {
    hide R.Act;
    exists acts :: R.ActAll(SETTINGS, OPENED, acts) == OPENED.(db := db)
  }

  lemma StartReached()
    ensures Reached(START)
  {
    hide R.Act;
    assert R.ActAll(SETTINGS, OPENED, []) == OPENED;
  }

  lemma ReachStep(db: Db, s: C.Step)
    requires Reached(db) && C.Possible(db, s) && !s.Elsewhere?
    ensures Reached(C.Perform(SETTINGS, db, s))
  {
    hide R.Act, C.Perform, C.Possible;
    var acts :| R.ActAll(SETTINGS, OPENED, acts) == OPENED.(db := db);
    var more := acts + [R.Background(s)];
    assert more[..|acts|] == acts;
    BackgroundActs(OPENED.(db := db), s);
    assert R.ActAll(SETTINGS, OPENED, more) == OPENED.(db := C.Perform(SETTINGS, db, s));
  }

  lemma BackgroundActs(o: Office, s: C.Step)
    requires C.Possible(o.db, s) && !s.Elsewhere?
    ensures R.Act(SETTINGS, o, R.Background(s)) == o.(db := C.Perform(SETTINGS, o.db, s))
  {
    hide C.Perform, C.Possible;
  }

  lemma ReachDelivery(db: Db, d: Delivery)
    requires Reached(db)
    ensures Reached(Ingest(SETTINGS, db, d))
  {
    hide Reached, Ingest;
    ReachStep(db, C.Deliver(d));
  }

  lemma ReachRebuild(db: Db, i: string)
    requires Reached(db) && i != ""
    ensures Reached(Rebuild(db, i))
  {
    hide Reached, Rebuild;
    ReachStep(db, C.RebuildOk(i));
  }

  /** All streams verified and short enough to go on. */
  ghost predicate Calm(streams: map<string, Stream>)
  {
    forall id | id in streams :: streams[id].lastMac == [] && streams[id].status.StreamOk?
  }

  /** A coherent store of exactly these events, without invalidations. */
  ghost predicate Stocked(db: Db, es: set<Event>)
  {
    && Reached(db) && db.sources == SOURCES && Calm(db.streams) && db.periods == [] && db.policies == map[]
    && Coherent(db) && DistinctIds(db.raws) && RawEvents(db.raws) == es
  }

  lemma StartStocked()
    ensures Stocked(START, {})
  {
    hide Reached, Replayed, ViewsOf;
    StartReached();
    forall i ensures ItemRows([], i) == [] { }
  }

  lemma SendAdmitted(db: Db, e: Event)
    requires db.sources == SOURCES && Calm(db.streams) && Sendable(e)
    ensures Admitted(SETTINGS, db, Send(e))
    ensures var after := Ingest(SETTINGS, db, Send(e));
            after.sources == SOURCES && Calm(after.streams) && after.book == db.book && after.routes == db.routes
  {
    hide WellFormed, Noted, MarkStale, Affected;
    var stream := StreamAt(db.streams, StreamId(e));
    assert |stream.lastMac| == 0 < Pow256(4);
    assert MacFor(SETTINGS, stream, Send(e)) == Some([]);
    assert SOURCES["S" := SOURCES["S"]] == SOURCES;
  }

  lemma Sent(db: Db, es: set<Event>, e: Event)
    requires Stocked(db, es) && Sendable(e) && forall x | x in es :: x.eventId != e.eventId
    ensures var after := Ingest(SETTINGS, db, Send(e));
            Stocked(after, es + {e}) && after.book == db.book && after.routes == db.routes && after.views == db.views
  {
    hide Coherent, Ingest, Admitted, Sendable, DistinctIds, RawEvents, Reached;
    ReachDelivery(db, Send(e));
    SendAdmitted(db, e);
    IngestReads(SETTINGS, db, Send(e));
    C.DeliverCoherent(SETTINGS, db, Send(e));
    Unknown(db.raws, es, e);
    Appended(db.raws, Ingest(SETTINGS, db, Send(e)).raws, e);
    NotInvalidation(e);
  }

  lemma NotInvalidation(e: Event)
    requires Sendable(e)
    ensures !e.payload.DeviceInvalidated?
  {
  }

  lemma Unknown(raws: seq<RawEvent>, es: set<Event>, e: Event)
    requires RawEvents(raws) == es && forall x | x in es :: x.eventId != e.eventId
    ensures IndexOfEvent(raws, e.eventId) == |raws|
  {
    forall k | 0 <= k < |raws| ensures raws[k].event.eventId != e.eventId {
      assert raws[k] in raws;
      assert raws[k].event in RawEvents(raws);
    }
  }

  lemma Appended(raws: seq<RawEvent>, after: seq<RawEvent>, e: Event)
    requires DistinctIds(raws) && IndexOfEvent(raws, e.eventId) == |raws|
    requires |after| == |raws| + 1 && after[..|raws|] == raws && after[|raws|].event == e
    ensures DistinctIds(after) && RawEvents(after) == RawEvents(raws) + {e}
  {
    RawEventsSnoc(raws, after);
    assert forall i | 0 <= i < |raws| :: after[i] == raws[i];
  }

  lemma Rebuilt(db: Db, es: set<Event>, i: string)
    requires Stocked(db, es) && i != ""
    ensures var after := Rebuild(db, i);
            && Stocked(after, es)
            && i in after.states && after.states[i].status.UpToDate?
            && ViewsAt(after, i) == ViewsOf(FromScratch(db, i))
            && (forall j | j != i :: ViewsAt(after, j) == ViewsAt(db, j))
            && (forall j | j in db.states && j != i :: j in after.states && after.states[j] == db.states[j])
  {
    hide ItemRows, FromScratch, ViewsOf, ViewsAt, Calm, DistinctIds, RawEvents, StateCoherent, RoutesAfter,
         SightingsFor, LinkAll;
    hide Reached, Rebuild;
    ReachRebuild(db, i);
    RebuildCoherent(db, i, {});
    assert {} - {i} == {};
    var after := Rebuild(db, i);
    RebuildStreams(db, i);
    CoherentAgrees(after, i);
    SameScratch(db, after, i);
  }

  lemma RebuildStreams(db: Db, i: string)
    ensures var after := Rebuild(db, i);
            && after.streams == db.streams && after.sources == db.sources && after.raws == db.raws
            && after.periods == db.periods && after.policies == db.policies
  {
    hide ItemRows, FromScratch, ViewsOf, RoutesAfter, SightingsFor, LinkAll, MaxSeq;
  }

  lemma CoherentAgrees(db: Db, i: string)
    requires Coherent(db) && i in db.states && db.states[i].status.UpToDate?
    ensures Agrees(db, i)
  {
    hide ItemRows, Agrees;
    assert StateCoherent(ItemRows(db.raws, i), db.states[i], Agrees(db, i));
  }

  lemma SameScratch(db: Db, after: Db, i: string)
    requires after.raws == db.raws && after.periods == db.periods && after.policies == db.policies
    ensures FromScratch(after, i) == FromScratch(db, i)
  {
  }

  /** The events of an item, when their order is known. */
  lemma EventsAre(db: Db, es: set<Event>, item: string, list: seq<Event>)
    requires Stocked(db, es) && DistinctTriples(es)
    requires forall e :: e in list <==> e in es && e.itemId == Some(item)
    requires forall i, j | 0 <= i < j < |list| :: list[i].occurredAt < list[j].occurredAt
    ensures EventsOf(db.raws, item) == list
    ensures list != [] ==> ItemRows(db.raws, item) != []
    ensures FromScratch(db, item) == Replayed(list, map[], [])
  {
    hide RawEvents, EventsOf, Coherent, DistinctTriples, Replayed, ItemRows, Reached;
    EventsOfSortedOnce(db.raws, item);
    var x := EventsOf(db.raws, item);
    forall e ensures e in x <==> e in list { EventsOfMembers(db.raws, item, e); }
    SameMembersSameMultiset(x, list);
    forall e, f | e in x && f in x && TripleOrder()(e, f) && TripleOrder()(f, e) ensures e == f {
      TripleLeAntisymmetric(e, f);
      OneTriple(es, e, f);
    }
    SortedUnique(x, list, TripleOrder());
    SomeRows(db.raws, item);
  }

  lemma OneTriple(es: set<Event>, e: Event, f: Event)
    requires DistinctTriples(es) && e in es && f in es && SameTriple(e, f)
    ensures e == f
  {
  }

  lemma SomeRows(raws: seq<RawEvent>, item: string)
    ensures ItemRows(raws, item) == [] ==> EventsOf(raws, item) == []
  {
  }

  /** Observations that all say the same are left alone by the conflict pass. */
  lemma Unanimous(os: seq<Observation>)
    requires forall o, p | o in os && p in os :: o.inspection.result == p.inspection.result
    ensures MarkConflicts(os) == os
  {
    forall i | 0 <= i < |os| ensures !Contradicted(os, os[i]) {
      assert os[i] in os;
    }
  }

  /* ---- the stopped invalidation ---- */

  function Good(device: string): Inspection
  {
    Inspection(NoDefect, "good", "CP", None, Unscoped, [], [], None, Some(device), None)
  }

  function GoodEvent(id: string, at: int, item: string): Event
  {
    Fact(id, at, item, None, InspectionDone(Good("D")))
  }

  lemma ReplayGood(e: Event)
    requires e.payload == InspectionDone(Good("D"))
    ensures Replayed([e], map[], []).observations ==
            [Observation(e.eventId, e.runId, e.occurredAt, Good("D"), Trusted, [])]
  {
    FoldNothing(map[], []);
    FoldSnoc([], e, map[], []);
    assert [] + [e] == [e];
    var o := Observation(e.eventId, e.runId, e.occurredAt, Good("D"), Trusted, []);
    assert Observe(map[], [])(e) == Some(o);
    assert FilterMap([e], Observe(map[], [])) == [o];
    Unanimous([o]);
  }

  /** Two items with one good inspection each, projected. */
  ghost predicate TwoProjected(db: Db)
  {
    hide Stocked;
    var a, b := GoodEvent("E1", 1, "A"), GoodEvent("E2", 2, "B");
    && Stocked(db, {a, b})
    && ViewsAt(db, "A").observations == [Observation("E1", None, 1, Good("D"), Trusted, [])]
    && ViewsAt(db, "B").observations == [Observation("E2", None, 2, Good("D"), Trusted, [])]
    && "B" in db.states && db.states["B"].status.UpToDate?
  }

  lemma ReachTwoProjected() returns (db: Db)
    ensures TwoProjected(db)
  {
    hide Stocked, Ingest, Rebuild, Sendable, ViewsAt, FromScratch, Replayed;
    var a, b := GoodEvent("E1", 1, "A"), GoodEvent("E2", 2, "B");
    StartStocked();
    GoodSendable("E1", 1, "A");
    GoodSendable("E2", 2, "B");
    Sent(START, {}, a);
    var one := Ingest(SETTINGS, START, Send(a));
    assert {} + {a} == {a};
    Sent(one, {a}, b);
    var two := Ingest(SETTINGS, one, Send(b));
    assert {a} + {b} == {a, b};
    var three := Rebuild(two, "A");
    Rebuilt(two, {a, b}, "A");
    db := Rebuild(three, "B");
    Rebuilt(three, {a, b}, "B");
    TwoTriples(a, b);
    EventsAre(two, {a, b}, "A", [a]);
    EventsAre(three, {a, b}, "B", [b]);
    ReplayGood(a);
    ReplayGood(b);
  }

  lemma GoodSendable(id: string, at: int, item: string)
    requires item != ""
    ensures Sendable(GoodEvent(id, at, item))
  {
  }

  lemma TwoTriples(a: Event, b: Event)
    requires a.occurredAt != b.occurredAt
    ensures DistinctTriples({a, b})
  {
  }

  /** An item with cached rows has raw events. */
  lemma CachedHasEvents(db: Db, es: set<Event>, i: string)
    requires Stocked(db, es) && i in db.views
    ensures exists e :: e in es && e.itemId == Some(i)
  {
    hide Reached, StateCoherent, Agrees;
    var rows := ItemRows(db.raws, i);
    assert rows[0] in rows;
    FilterMapMembers(db.raws, OfItem(i), rows[0]);
    assert rows[0].event in RawEvents(db.raws);
  }

  lemma ShownAffected(db: Db, p: DevicePeriod, i: string, o: Observation)
    requires ViewsAt(db, i).observations == [o] && Queried(p, o)
    ensures i in Affected(db.views, p)
  {
    assert o in db.views[i].observations;
  }

  lemma BothAffected(db: Db, p: DevicePeriod, i: string)
    requires TwoProjected(db) && p == DevicePeriod("D", 0, 9)
    ensures i in ["A", "B"] <==> i in Affected(db.views, p)
  {
    hide Stocked, ViewsAt, Affected;
    var a, b := GoodEvent("E1", 1, "A"), GoodEvent("E2", 2, "B");
    ShownAffected(db, p, "A", ViewsAt(db, "A").observations[0]);
    ShownAffected(db, p, "B", ViewsAt(db, "B").observations[0]);
    if i in Affected(db.views, p) {
      AffectedCached(db.views, p, i);
      CachedHasEvents(db, {a, b}, i);
    }
  }

  lemma AffectedCached(views: map<string, Views>, p: DevicePeriod, i: string)
    requires i in Affected(views, p)
    ensures i in views
  {
  }

  lemma StopsAtSecond(a: string, b: string)
    requires a != b
    ensures StopAt([a, b], {b}) == 1 && [a, b][..1] == [a] && [a, b][1..] == [b]
  {
    assert [a, b][1..] == [b];
  }

  /** A human invalidation whose second rebuild raises leaves an up-to-date item whose cache no longer agrees. */
  lemma StoppedInvalidationDisagrees()
    ensures exists db, p, ids, failing ::
              && Reached(db) && Coherent(db)
              && (forall i :: i in ids <==> i in Affected(db.views, p))
              && !Coherent(InvalidatedBy(db, p, ids, failing))
  {
    hide Reached, Coherent, InvalidatedBy, Affected, ViewsAt;
    var db := ReachTwoProjected();
    var p, ids, failing := DevicePeriod("D", 0, 9), ["A", "B"], {"B"};
    forall i ensures i in ids <==> i in Affected(db.views, p) { BothAffected(db, p, i); }
    StopsAtSecond("A", "B");
    var o := ViewsAt(db, "B").observations[0];
    assert o in ViewsAt(db, "B").observations && Queried(p, o) && !Settled(o.trust);
    assert !SettledFor(ViewsAt(db, "B"), p);
    assert "B" in ids[1..] && "B" !in ids[..1];
    InvalidationCoherentIff(db, p, ids, failing);
  }

  /* ---- two trusted defects of one key ---- */

  function Bad(): Inspection
  {
    Inspection(DefectDetected, "good", "CP", None, Unscoped, [Defect("burr", None)], [], None, None, None)
  }

  function BadEvent(id: string, at: int): Event
  {
    Fact(id, at, "A", None, InspectionDone(Bad()))
  }

  function BadSeen(id: string, at: int): Observation
  {
    Observation(id, None, at, Bad(), Trusted, [])
  }

  lemma BadSendable(id: string, at: int)
    ensures Sendable(BadEvent(id, at))
  {
  }

  lemma ObserveBad(id: string, at: int)
    ensures Observe(map[], [])(BadEvent(id, at)) == Some(BadSeen(id, at))
  {
  }

  lemma ReplayBad(id: string, at: int)
    ensures Replayed([BadEvent(id, at)], map[], []) == Projection(None, [], [BadSeen(id, at)], [], [])
  {
    var e := BadEvent(id, at);
    FoldNothing(map[], []);
    FoldSnoc([], e, map[], []);
    assert [] + [e] == [e];
    ObserveBad(id, at);
    assert FilterMap([e], Observe(map[], [])) == [BadSeen(id, at)];
    Unanimous([BadSeen(id, at)]);
  }

  lemma ReplayTwoBad(a: string, s: int, b: string, t: int)
    ensures Replayed([BadEvent(a, s), BadEvent(b, t)], map[], []).observations == [BadSeen(a, s), BadSeen(b, t)]
  {
    hide FilterMap, RunsOf, RegistrationOf, MarkConflicts, Observe, BadEvent;
    var e, f := BadEvent(a, s), BadEvent(b, t);
    ObserveBad(a, s);
    ObserveBad(b, t);
    FoldNothing(map[], []);
    FoldSnoc([], e, map[], []);
    assert [] + [e] == [e];
    FoldSnoc([e], f, map[], []);
    assert [e] + [f] == [e, f];
    assert FilterMap([e, f], Observe(map[], [])) == [BadSeen(a, s), BadSeen(b, t)];
    Unanimous([BadSeen(a, s), BadSeen(b, t)]);
  }

  function BadWindow(id: string, at: int, p: Projection, limitations: seq<Evidence>): Window
  {
    WindowOf(DefectAt(id, at, "burr", None), p.observations, p.runs, p.machines, p.actions, limitations)
  }

  lemma BadOutcomes(os: seq<Observation>, id: string, at: int, p: Projection, limitations: seq<Evidence>)
    ensures OutcomesFor(Sightings(os + [BadSeen(id, at)], p, limitations), "burr", None) ==
            OutcomesFor(Sightings(os, p, limitations), "burr", None) + [Windowed(BadWindow(id, at, p, limitations))]
  {
    hide WindowOf;
    var o, d := BadSeen(id, at), Defect("burr", None);
    assert (os + [o])[..|os|] == os;
    OneSighting(o, d, p, limitations);
    var s := SightingOf(o, d, p, limitations);
    OneOutcome(s, "burr", None);
    OutcomesConcat(Sightings(os, p, limitations), [s], "burr", None);
  }

  lemma OneSighting(o: Observation, d: Defect, p: Projection, limitations: seq<Evidence>)
    ensures DefectSightings(o, [d], p, limitations) == [SightingOf(o, d, p, limitations)]
  {
    hide SightingOf;
    var ds := [d];
    assert ds[..|ds| - 1] == [];
  }

  lemma OneOutcome(s: Sighting, defectType: string, component: Option<string>)
    ensures OutcomesFor([s], defectType, component) == if Concerns(s, defectType, component) then [s.outcome] else []
  {
    var ss := [s];
    assert ss[..|ss| - 1] == [];
  }

  /** One trusted defect in the cache of a projection gives one window. */
  lemma OneBadOutcome(db: Db, id: string, at: int)
    requires FromScratch(db, "A").observations == [BadSeen(id, at)]
    ensures OutcomesFor(SightingsFor(db, "A"), "burr", None) ==
            [Windowed(BadWindow(id, at, FromScratch(db, "A"), LimitationsFor(db, "A")))]
  {
    hide FromScratch, LimitationsFor, WindowOf;
    assert [] + [BadSeen(id, at)] == [BadSeen(id, at)];
    BadOutcomes([], id, at, FromScratch(db, "A"), LimitationsFor(db, "A"));
  }

  lemma TwoBadOutcomes(db: Db, a: string, s: int, b: string, t: int)
    requires FromScratch(db, "A").observations == [BadSeen(a, s), BadSeen(b, t)]
    ensures var p, l := FromScratch(db, "A"), LimitationsFor(db, "A");
            OutcomesFor(SightingsFor(db, "A"), "burr", None) ==
              [Windowed(BadWindow(a, s, p, l)), Windowed(BadWindow(b, t, p, l))]
  {
    hide FromScratch, LimitationsFor, WindowOf;
    var p, l := FromScratch(db, "A"), LimitationsFor(db, "A");
    assert [] + [BadSeen(a, s)] == [BadSeen(a, s)] &&
        [BadSeen(a, s)] + [BadSeen(b, t)] == [BadSeen(a, s), BadSeen(b, t)];
    BadOutcomes([], a, s, p, l);
    BadOutcomes([BadSeen(a, s)], b, t, p, l);
  }

  /** Two trusted defects of item A at different times, not yet projected. */
  ghost predicate TwoDefects(db: Db)
  {
    hide Stocked;
    && Stocked(db, {BadEvent("E1", 1), BadEvent("E2", 2)}) && db.book == Book([], []) && ItemRows(db.raws, "A") != []
    && FromScratch(db, "A").observations == [BadSeen("E1", 1), BadSeen("E2", 2)]
  }

  lemma ReachTwoDefects() returns (db: Db)
    ensures TwoDefects(db)
  {
    hide Stocked, Ingest, Sendable, FromScratch, Replayed, ItemRows;
    var a, b := BadEvent("E1", 1), BadEvent("E2", 2);
    StartStocked();
    BadSendable("E1", 1);
    BadSendable("E2", 2);
    Sent(START, {}, a);
    var one := Ingest(SETTINGS, START, Send(a));
    assert {} + {a} == {a};
    Sent(one, {a}, b);
    db := Ingest(SETTINGS, one, Send(b));
    assert {a} + {b} == {a, b};
    TwoTriples(a, b);
    EventsAre(db, {a, b}, "A", [a, b]);
    ReplayTwoBad("E1", 1, "E2", 2);
  }

  lemma EmptyBookSound()
    ensures Sound(Book([], []))
  {
  }

  lemma StockedOnce(db: Db, es: set<Event>)
    requires Stocked(db, es)
    ensures DistinctIds(db.raws) && Reached(db)
  {
    hide Reached;
  }

  lemma LastOfTwo(x: DefectBook.Outcome, y: DefectBook.Outcome)
    requires !y.Undecided?
    ensures LastDecided([x, y]) == y
  {
  }

  lemma RightsDiffer(p: Projection, l: seq<Evidence>)
    ensures Expected(Windowed(BadWindow("E1", 1, p, l))) != Expected(Windowed(BadWindow("E2", 2, p, l)))
  {
  }

  /** With two trusted defects of one key at different times, a repeated rebuild adds versions. */
  lemma RepeatedRebuildAddsVersions()
    ensures exists db ::
              && Reached(db)
              && OpenLog(Rebuild(Rebuild(db, "A"), "A").book, "A", "burr", None) !=
                 OpenLog(Rebuild(db, "A").book, "A", "burr", None)
  {
    hide Stocked, Reached, Rebuild, FromScratch, OpenLog, Sound, WindowOf, SightingsFor, OutcomesFor, ItemRows;
    var db := ReachTwoDefects();
    StockedOnce(db, {BadEvent("E1", 1), BadEvent("E2", 2)});
    EmptyBookSound();
    TwoBadOutcomes(db, "E1", 1, "E2", 2);
    var p, l := FromScratch(db, "A"), LimitationsFor(db, "A");
    var x, y := Windowed(BadWindow("E1", 1, p, l)), Windowed(BadWindow("E2", 2, p, l));
    LastOfTwo(x, y);
    RightsDiffer(p, l);
    assert x in [x, y];
    C.RepeatedRebuild(db, "A", "burr", None);
  }

  lemma BadCarries(id: string, at: int)
    ensures Carries(BadSeen(id, at), "burr", None)
  {
    assert Defect("burr", None) in [Defect("burr", None)];
  }

  /** Then the current analysis ends at the second defect, not at the first, and the evidence FIRST_TRUSTED_DEFECT of
      the second one's window does not name the first. */
  lemma SecondDefectReported()
    ensures exists db ::
              && Reached(db)
              && FromScratch(db, "A").observations == [BadSeen("E1", 1), BadSeen("E2", 2)]
              && !IsFirstDefect(CurrentRight(Rebuild(db, "A").book, "A", "burr", None),
                FromScratch(db, "A").observations, "burr", None)
              && !exists e :: e in WindowAt(db, "A", 1, Defect("burr", None)).evidence && e.kind == FIRST
                              && e.sourceEvent == Some("E1")
  {
    hide Stocked, Reached, Rebuild, FromScratch, OpenLog, Sound, WindowOf, SightingsFor, OutcomesFor, ItemRows,
         DistinctIds;
    hide IsLastDefect, IsFirstDefect, Carries, WindowAt, LimitationsFor, CurrentRight;
    var db := ReachTwoDefects();
    StockedOnce(db, {BadEvent("E1", 1), BadEvent("E2", 2)});
    EmptyBookSound();
    TwoBadOutcomes(db, "E1", 1, "E2", 2);
    var os, p, l := FromScratch(db, "A").observations, FromScratch(db, "A"), LimitationsFor(db, "A");
    LastOfTwo(Windowed(BadWindow("E1", 1, p, l)), Windowed(BadWindow("E2", 2, p, l)));
    BadCarries("E1", 1);
    BadCarries("E2", 2);
    assert os[0] == BadSeen("E1", 1) && os[1] == BadSeen("E2", 2);
    CurrentBoundaryFirstIff(db, "A", "burr", None);
    assert FirstCarrier(os, "burr", None) == 0;
    NamesFirstDefectIff(db, "A", 1, Defect("burr", None));
  }

  /* ---- a late event inside an unchanged window ---- */

  function LateAction(): Event
  {
    Fact("E2", 3, "A", None, OperatorAction(Action("U", "adjust")))
  }

  lemma ReplayLate()
    ensures Replayed([LateAction(), BadEvent("E1", 5)], map[], []) ==
            Projection(None, [], [BadSeen("E1", 5)], [], [ActionRow("E2", None, 3, Action("U", "adjust"))])
  {
    hide FilterMap, RunsOf, RegistrationOf, MarkConflicts, EvaluateTrust;
    var e, f := LateAction(), BadEvent("E1", 5);
    ObserveBad("E1", 5);
    FoldNothing(map[], []);
    FoldSnoc([], e, map[], []);
    assert [] + [e] == [e];
    FoldSnoc([e], f, map[], []);
    assert [e] + [f] == [e, f];
    assert FilterMap([e, f], Observe(map[], [])) == [BadSeen("E1", 5)];
    assert FilterMap([e, f], ActionOf()) == [ActionRow("E2", None, 3, Action("U", "adjust"))];
    Unanimous([BadSeen("E1", 5)]);
  }

  /** A projected defect of item A and a late, not yet projected action before it. */
  ghost predicate LateArrived(db: Db)
  {
    hide Reached;
    && Reached(db) && Sound(db.book) && ItemRows(db.raws, "A") != []
    && FromScratch(db, "A") ==
      Projection(None, [], [BadSeen("E1", 5)], [], [ActionRow("E2", None, 3, Action("U", "adjust"))])
    && db.routes == Routes.EMPTY
    && var log := OpenLog(db.book, "A", "burr", None);
       var w := BadWindow("E1", 5, Projection(None, [], [BadSeen("E1", 5)], [], []), []);
       && log != [] && FindingOf(log[|log| - 1]) == Expected(Windowed(w)) && log[|log| - 1].evidence == w.evidence
  }

  lemma NoLimitations(db: Db)
    requires db.routes == Routes.EMPTY && FromScratch(db, "A").registration == None
    ensures LimitationsFor(db, "A") == []
  {
    hide FromScratch;
  }

  lemma FirstAnalysis(db: Db)
    requires db.book == Book([], []) && db.routes == Routes.EMPTY && ItemRows(db.raws, "A") != []
    requires FromScratch(db, "A") == Projection(None, [], [BadSeen("E1", 5)], [], [])
    ensures var after := Rebuild(db, "A");
            var log := OpenLog(after.book, "A", "burr", None);
            var w := BadWindow("E1", 5, Projection(None, [], [BadSeen("E1", 5)], [], []), []);
            && Sound(after.book) && after.routes == Routes.EMPTY
            && log != [] && FindingOf(log[|log| - 1]) == Expected(Windowed(w)) && log[|log| - 1].evidence == w.evidence
  {
    hide Rebuild, FromScratch, OpenLog, WindowOf, SightingsFor, OutcomesFor, ItemRows, Sound;
    EmptyBookSound();
    NoLimitations(db);
    OneBadOutcome(db, "E1", 5);
    NothingOpen();
    C.RebuildConverges(db, "A", "burr", None);
    RebuildEvidenceIff(db, "A", "burr", None);
    R.RebuildReanalyses(db, "A");
    RoutesKept(db);
  }

  lemma NothingOpen()
    ensures OpenLog(Book([], []), "A", "burr", None) == []
  {
  }

  lemma RoutesKept(db: Db)
    requires FromScratch(db, "A").registration == None
    ensures Rebuild(db, "A").routes == db.routes
  {
    hide FromScratch, ItemRows, LinkAll, SightingsFor, ViewsOf, MaxSeq;
  }

  lemma ReachLate() returns (db: Db)
    ensures LateArrived(db)
  {
    hide Stocked, Ingest, Sendable, FromScratch, Replayed, ItemRows, Rebuild, Sound, OpenLog, WindowOf, Reached;
    hide BadWindow, Expected, EvidenceOf, DistinctTriples, ViewsAt, ViewsOf;
    var a, b := BadEvent("E1", 5), LateAction();
    StartStocked();
    BadSendable("E1", 5);
    LateSendable();
    Sent(START, {}, a);
    var one := Ingest(SETTINGS, START, Send(a));
    assert {} + {a} == {a};
    var two := Rebuild(one, "A");
    Rebuilt(one, {a}, "A");
    OneTripleSet(a);
    EventsAre(one, {a}, "A", [a]);
    ReplayBad("E1", 5);
    FirstAnalysis(one);
    Sent(two, {a}, b);
    db := Ingest(SETTINGS, two, Send(b));
    assert {a} + {b} == {a, b};
    TwoTriples(a, b);
    EventsAre(db, {a, b}, "A", [b, a]);
    ReplayLate();
    StockedOnce(db, {a, b});
  }

  lemma LateSendable()
    ensures Sendable(LateAction())
  {
  }

  lemma OneTripleSet(a: Event)
    ensures DistinctTriples({a})
  {
  }

  lemma LateChangesEvidenceOnly()
    ensures var p := Projection(None, [], [BadSeen("E1", 5)], [], []);
            var q := p.(actions := [ActionRow("E2", None, 3, Action("U", "adjust"))]);
            && Expected(Windowed(BadWindow("E1", 5, p, []))) == Expected(Windowed(BadWindow("E1", 5, q, [])))
            && BadWindow("E1", 5, p, []).evidence != BadWindow("E1", 5, q, []).evidence
  {
    var p := Projection(None, [], [BadSeen("E1", 5)], [], []);
    var a := ActionRow("E2", None, 3, Action("U", "adjust"));
    var d := DefectAt("E1", 5, "burr", None);
    WindowMaximal(d, p.observations, [], [], [], []);
    WindowMaximal(d, p.observations, [], [], [a], []);
    assert Inside(None, d, 3) && a in [a];
    EvidenceExact(d, p.observations, [], [], [a], [], ActionInWindow(a));
    EvidenceExact(d, p.observations, [], [], [], [], ActionInWindow(a));
    assert "OPERATOR_ACTION"[0] == 'O' && "FIRST_TRUSTED_DEFECT"[0] == 'F' && "LAST_TRUSTED_GOOD"[0] == 'L';
  }

  /** A late action inside an unchanged window never enters the evidence of the current analysis. */
  lemma EvidenceStaysOld()
    ensures exists db ::
              && Reached(db)
              && var log := OpenLog(Rebuild(db, "A").book, "A", "burr", None);
                 var last := LastDecided(OutcomesFor(SightingsFor(db, "A"), "burr", None));
                 !last.Undecided? && log != [] && FindingOf(log[|log| - 1]) == Expected(last)
                 && log[|log| - 1].evidence != EvidenceOf(last)
  {
    hide Reached, Rebuild, FromScratch, OpenLog, WindowOf, SightingsFor, OutcomesFor, ItemRows, Sound;
    var db := ReachLate();
    NoLimitations(db);
    OneBadOutcome(db, "E1", 5);
    LateChangesEvidenceOnly();
    C.RebuildConverges(db, "A", "burr", None);
    RebuildEvidenceIff(db, "A", "burr", None);
  }

  /* ---- a failed verification without a rework decision ---- */

  function Started(): Event
  {
    Fact("E2", 2, "A", Some("R"), OperationStarted(Start("OP", "U", "EQ", "ST", None, "rework", Some(0))))
  }

  function Finished(): Event
  {
    Fact("E3", 3, "A", Some("R"), OperationFinished(Finish("completed", None)))
  }

  function ReworkRun(): Run
  {
    Run("R", Some(Start("OP", "U", "EQ", "ST", None, "rework", Some(0))), Some(2), Some(3), Some("completed"), None,
      "E3")
  }

  lemma ReworkSteps()
    ensures RunStep(RunStep([], Started()), Finished()) == [ReworkRun()]
  {
    assert IndexOfRun([], "R") == 0;
    assert [] + [NewRun("R")] == [NewRun("R")];
    assert IndexOfRun([NewRun("R")], "R") == 0;
    var one := StartedRun(NewRun("R"), Started().payload.start, Started());
    assert RunStep([], Started()) == [one];
    assert IndexOfRun([one], "R") == 0;
  }

  lemma ReplayRework()
    ensures Replayed([BadEvent("E1", 1), Started(), Finished()], map[], []).runs == [ReworkRun()]
  {
    var e, f, g := BadEvent("E1", 1), Started(), Finished();
    hide FilterMap, RunsOf, RegistrationOf, MarkConflicts, Observe, MachineOf, ActionOf, RunStep;
    NoRun(e);
    ReworkSteps();
    FoldNothing(map[], []);
    FoldSnoc([], e, map[], []);
    assert [] + [e] == [e];
    FoldSnoc([e], f, map[], []);
    assert [e] + [f] == [e, f];
    FoldSnoc([e, f], g, map[], []);
    assert [e, f] + [g] == [e, f, g];
  }

  lemma NoRun(e: Event)
    requires e.payload.InspectionDone?
    ensures RunStep([], e) == []
  {
  }

  /** The first rebuild opens nonconformance 0 of item A, and nobody has decided a rework. */
  lemma FirstNcr(db: Db)
    requires db.book == Book([], []) && ItemRows(db.raws, "A") != []
    requires FromScratch(db, "A").observations == [BadSeen("E1", 1)]
    ensures var after := Rebuild(db, "A");
            Sound(after.book) && |after.book.ncrs| == 1 && after.book.ncrs[0].itemId == "A" &&
              !after.book.ncrs[0].rework
  {
    hide FromScratch, ItemRows, RoutesAfter, LimitationsFor, ViewsOf, MaxSeq, WindowOf, DefectBook.Link, Sound;
    EmptyBookSound();
    R.RebuildReanalyses(db, "A");
    var p, l, o := FromScratch(db, "A"), LimitationsFor(db, "A"), BadSeen("E1", 1);
    var s := SightingOf(o, Defect("burr", None), p, l);
    OneBadSighting("E1", 1, p, l);
    LinkAllOne(s);
    OneLinked(s);
  }

  lemma OneBadSighting(id: string, at: int, p: Projection, limitations: seq<Evidence>)
    ensures Sightings([BadSeen(id, at)], p, limitations) ==
            [SightingOf(BadSeen(id, at), Defect("burr", None), p, limitations)]
  {
    hide SightingOf, DefectSightings;
    var os := [BadSeen(id, at)];
    assert os[..|os| - 1] == [];
    assert Sightings([], p, limitations) == [];
    OneSighting(os[0], Defect("burr", None), p, limitations);
  }

  lemma LinkAllOne(s: Sighting)
    ensures LinkAll(Book([], []), "A", [s]) == DefectBook.Link(Book([], []), "A", s)
  {
    hide DefectBook.Link;
    var ss := [s];
    assert ss[..|ss| - 1] == [];
  }

  lemma OneLinked(s: Sighting)
    ensures var b := DefectBook.Link(Book([], []), "A", s);
            |b.ncrs| == 1 && b.ncrs[0].itemId == "A" && !b.ncrs[0].rework
  {
    hide DefectBook.Link;
    LinkTouches(Book([], []), "A", s);
    assert GoodLog([]);
    AnalysedGood(NewNcr(0, "A", s), s.outcome);
  }

  /** Nonconformance 0 of item A has a completed rework run, but no rework was decided. */
  ghost predicate Reworked(db: Db)
  {
    hide Reached;
    && Reached(db) && Calm(db.streams)
    && |db.book.ncrs| >= 1 && db.book.ncrs[0].itemId == "A" && !db.book.ncrs[0].rework
    && ViewsAt(db, "A").runs == [ReworkRun()]
  }

  lemma ReachReworked() returns (db: Db)
    ensures Reworked(db)
  {
    hide Stocked, Ingest, Sendable, FromScratch, Replayed, ItemRows, Rebuild, Sound, Reached, ViewsAt;
    hide DistinctTriples;
    var a, b, c := BadEvent("E1", 1), Started(), Finished();
    StartStocked();
    BadSendable("E1", 1);
    ReworkSendable();
    Sent(START, {}, a);
    var one := Ingest(SETTINGS, START, Send(a));
    assert {} + {a} == {a};
    OneTripleSet(a);
    EventsAre(one, {a}, "A", [a]);
    ReplayBad("E1", 1);
    Rebuilt(one, {a}, "A");
    var two := Rebuild(one, "A");
    FirstNcr(one);
    Sent(two, {a}, b);
    var three := Ingest(SETTINGS, two, Send(b));
    assert {a} + {b} == {a, b};
    Sent(three, {a, b}, c);
    var four := Ingest(SETTINGS, three, Send(c));
    assert {a, b} + {c} == {a, b, c};
    ThreeTriples(a, b, c);
    EventsAre(four, {a, b, c}, "A", [a, b, c]);
    ReplayRework();
    Rebuilt(four, {a, b, c}, "A");
    db := Rebuild(four, "A");
    R.RebuildReanalyses(four, "A");
    StockedCalm(db, {a, b, c});
  }

  lemma ThreeTriples(a: Event, b: Event, c: Event)
    requires a.occurredAt < b.occurredAt < c.occurredAt
    ensures DistinctTriples({a, b, c})
  {
  }

  lemma StockedCalm(db: Db, es: set<Event>)
    requires Stocked(db, es)
    ensures Reached(db) && Calm(db.streams)
  {
    hide Reached;
  }

  lemma ReworkSendable()
    ensures Sendable(Started()) && Sendable(Finished())
  {
  }

  lemma ReworkFinished()
    ensures ReworkFinish([ReworkRun()], 0) == Some(3)
  {
    assert ReworkRun() in [ReworkRun()] && IsRework(ReworkRun(), 0);
    assert [ReworkRun()][1..] == [];
  }

  lemma VerificationFails(o: Office)
    requires Reworked(o.db)
    ensures Verified(o, 0, false, 9).Done? && !EffectivePass(o, 0, false)
    ensures Verified(o, 0, false, 9).office.db.book.ncrs[0].verification == Some(VerificationFailed)
  {
    hide Reached, ViewsAt, ReworkFinish;
    ReworkFinished();
    forall r | r in o.db.raws && r.link.metadata.streamId in o.db.streams
      ensures o.db.streams[r.link.metadata.streamId].status.StreamOk? { }
    assert !EvidenceFailed(o.db, "A");
  }

  /** A REWORK_REQUIRED decision and an exported result of the same nonconformance, whose only verification failed. */
  predicate ReleasedUnverified(o: Office)
  {
    && |o.decisions| == 2 && o.decisions[0].ncr == 0 && o.decisions[0].disposition.ReworkRequired?
    && |o.results| == 1 && o.results[0].decision == 1 && o.results[0].payload.ncr == 0
    && |o.db.book.ncrs| > 0 && o.db.book.ncrs[0].verification == Some(VerificationFailed)
  }

  lemma DecideAfterFailure(o: Office)
    requires Reworked(o.db) && R.Filed(o) && o.decisions == [] && o.results == []
    ensures var failed := Verified(o, 0, false, 9);
            && failed.Done?
            && var released := Decided(failed.office, 0, Confirmed, Released, Uncontained, 10);
               released.Done? && ReleasedUnverified(released.office)
  {
    hide Reworked, R.Filed, EvidenceFailed, EffectivePass, ReworkFinish, Created, ViewsAt;
    VerificationFails(o);
    NoReworkDecided(o.db);
    R.FailedVerificationGatesIff(o, 0, false, 9, 10);
    R.VerifyFiled(o, 0, false, 9);
    var failed := Verified(o, 0, false, 9).office;
    ReleaseAfter(failed);
  }

  lemma NoReworkDecided(db: Db)
    requires Reworked(db)
    ensures |db.book.ncrs| >= 1 && !db.book.ncrs[0].rework
  {
    hide Reached;
  }

  lemma ReleaseAfter(failed: Office)
    requires R.Filed(failed) && |failed.decisions| == 1 && failed.decisions[0].ncr == 0 &&
            failed.decisions[0].disposition.ReworkRequired?
    requires failed.results == [] && |failed.db.book.ncrs| > 0
    requires failed.db.book.ncrs[0].verification == Some(VerificationFailed)
    requires Decided(failed, 0, Confirmed, Released, Uncontained, 10).Done?
    ensures ReleasedUnverified(Decided(failed, 0, Confirmed, Released, Uncontained, 10).office)
  {
    hide R.Filed, EvidenceFailed, Latest, WithStatus, AuthorizeError;
  }

  /** So a REWORK_REQUIRED decision does not by itself hold an item back: a run ends with such a decision followed by an
      exported result, although the only verification failed. */
  lemma ReworkDecisionReleased()
    ensures exists acts :: ReleasedUnverified(R.ActAll(SETTINGS, OPENED, acts))
  {
    hide R.Act, Reworked, R.Filed, ReleasedUnverified, Verified, Decided;
    var db := ReachReworked();
    ReworkedReached(db);
    var acts :| R.ActAll(SETTINGS, OPENED, acts) == OPENED.(db := db);
    var o := OPENED.(db := db);
    R.RunsFiled(SETTINGS, OPENED, acts);
    DecideAfterFailure(o);
    var verify, decide := R.VerifyRework(0, false, 9), R.Decide(0, Confirmed, Released, Uncontained, 10);
    TwoMore(acts, verify, decide);
    DeskActs(o, verify);
    DeskActs(R.Act(SETTINGS, o, verify), decide);
  }

  lemma ReworkedReached(db: Db)
    requires Reworked(db)
    ensures Reached(db)
  {
    hide Reached;
  }

  lemma TwoMore(acts: seq<R.Action>, a: R.Action, b: R.Action)
    ensures R.ActAll(SETTINGS, OPENED, acts + [a, b]) ==
            R.Act(SETTINGS, R.Act(SETTINGS, R.ActAll(SETTINGS, OPENED, acts), a), b)
  {
    hide R.Act;
    assert (acts + [a])[..|acts|] == acts;
    assert (acts + [a, b])[..|acts| + 1] == acts + [a];
  }

  lemma DeskActs(o: Office, a: R.Action)
    ensures a.VerifyRework? && Verified(o, a.ncr, a.passed, a.now).Done? ==>
              R.Act(SETTINGS, o, a) == Verified(o, a.ncr, a.passed, a.now).office
    ensures a.Decide? && Decided(o, a.ncr, a.verdict, a.disposition, a.containment, a.now).Done? ==>
              R.Act(SETTINGS, o, a) == Decided(o, a.ncr, a.verdict, a.disposition, a.containment, a.now).office
  {
    hide Verified, Decided;
  }

  /* ---- a second registration ---- */

  function Register(): Registration
  {
    Registration("P", "A", None, None, None)
  }

  function Registered(id: string, at: int): Event
  {
    Fact(id, at, "A", None, ItemRegistered(Register()))
  }

  lemma ReplayRegistered()
    ensures Replayed([Registered("E1", 5)], map[], []).registration == Some((Register(), 5))
    ensures Replayed([Registered("E1", 5), Registered("E2", 7)], map[], []).registration == Some((Register(), 7))
  {
    hide FilterMap, RunsOf, RegistrationOf, MarkConflicts, Observe, MachineOf, ActionOf, RunStep;
    var e, f := Registered("E1", 5), Registered("E2", 7);
    FoldSnoc([], e, map[], []);
    assert [] + [e] == [e];
    FoldSnoc([e], f, map[], []);
    assert [e] + [f] == [e, f];
  }

  /** An item registered twice keeps the registration time of its first rebuild. */
  lemma RegistrationTimeStays()
    ensures exists db ::
              && Reached(db) && FromScratch(db, "A").registration == Some((Register(), 7))
              && "A" in Rebuild(db, "A").routes.items && Rebuild(db, "A").routes.items["A"].registeredAt == 5
  {
    hide Stocked, Ingest, Sendable, FromScratch, Replayed, ItemRows, Rebuild, Reached;
    var a, b := Registered("E1", 5), Registered("E2", 7);
    StartStocked();
    RegisterSendable();
    Sent(START, {}, a);
    var one := Ingest(SETTINGS, START, Send(a));
    assert {} + {a} == {a};
    OneTripleSet(a);
    EventsAre(one, {a}, "A", [a]);
    ReplayRegistered();
    Rebuilt(one, {a}, "A");
    RegistrationAgreesIff(one, "A");
    var two := Rebuild(one, "A");
    Sent(two, {a}, b);
    var db := Ingest(SETTINGS, two, Send(b));
    assert {a} + {b} == {a, b};
    TwoTriples(a, b);
    EventsAre(db, {a, b}, "A", [a, b]);
    StockedOnce(db, {a, b});
    RegistrationAgreesIff(db, "A");
    RegisteredAtKept(db);
  }

  lemma RegisterSendable()
    ensures Sendable(Registered("E1", 5)) && Sendable(Registered("E2", 7))
  {
  }

  lemma RegisteredAtKept(db: Db)
    requires "A" in db.routes.items && ItemRows(db.raws, "A") != [] && FromScratch(db, "A").registration.Some?
    ensures "A" in Rebuild(db, "A").routes.items
    ensures Rebuild(db, "A").routes.items["A"].registeredAt == db.routes.items["A"].registeredAt
  {
    hide FromScratch, ItemRows, LinkAll, SightingsFor, ViewsOf, MaxSeq;
  }
}
