/** Late, duplicate and out-of-order delivery: what a rebuild shows depends on the set of events alone. */
module DeliveryOrder {
  import opened Basics
  import opened Sorting
  import opened Events
  import opened Trust
  import opened Replay
  import opened RawLog
  import opened Store
  import opened Ingestion
  import opened Projections

  /** The events of the deliveries that are neither refused nor lost to an overflow. */
  ghost function AdmittedEvents(c: Config, db: Db, ds: seq<Delivery>): set<Event>
  {
    hide Admitted, Ingest;
    if ds == [] then {}
    else
      var init, d := ds[..|ds| - 1], ds[|ds| - 1];
      AdmittedEvents(c, db, init) + if Admitted(c, IngestAll(c, db, init), d) then {d.event} else {}
  }

  /** No event id carries two contents. */
  ghost predicate NoConflicts(es: set<Event>)
  {
    forall a, b | a in es && b in es && a.eventId == b.eventId :: a == b
  }

  /** Time, source and source sequence together tell events apart. */
  ghost predicate DistinctTriples(es: set<Event>)
  {
    forall a, b | a in es && b in es && SameTriple(a, b) :: a == b
  }

  ghost function RawEvents(raws: seq<RawEvent>): set<Event>
  {
    set r | r in raws :: r.event
  }

  ghost predicate DistinctIds(raws: seq<RawEvent>)
  {
    forall i, j | 0 <= i < j < |raws| :: raws[i].event.eventId != raws[j].event.eventId
  }

  /** The periods known at the start and those of the stored invalidation events. */
  ghost predicate PeriodsFrom(periods: seq<DevicePeriod>, known: seq<DevicePeriod>, es: set<Event>)
  {
    forall p :: p in periods <==> p in known || exists e | e in es :: e.payload == DeviceInvalidated(p)
  }

  /** What one delivery does to the tables a replay reads. */
  lemma IngestReads(c: Config, db: Db, d: Delivery)
    ensures var after := Ingest(c, db, d);
            && after.views == db.views && after.policies == db.policies
            && (if Admitted(c, db, d) && IndexOfEvent(db.raws, d.event.eventId) == |db.raws| then
                  && |after.raws| == |db.raws| + 1 && after.raws[..|db.raws|] == db.raws &&
                    after.raws[|db.raws|].event == d.event
                  && after.periods == db.periods + if d.event.payload.DeviceInvalidated? then [d.event.payload.period]
                    else []
                else after.raws == db.raws && after.periods == db.periods)
  {
    hide Sequenced, Noted, MarkStale, Affected, MacFor, IndexOfEvent, Refusal, StreamAt, MetadataFor, EventType,
         StreamId;
  }

  ghost predicate Reflects(start: Db, db: Db, es: set<Event>)
  {
    && RawEvents(db.raws) == es && DistinctIds(db.raws) && PeriodsFrom(db.periods, start.periods, es)
    && db.views == start.views && db.policies == start.policies
  }

  lemma RawEventsSnoc(before: seq<RawEvent>, after: seq<RawEvent>)
    requires |after| == |before| + 1 && after[..|before|] == before
    ensures RawEvents(after) == RawEvents(before) + {after[|before|].event}
  {
    assert after == before + [after[|before|]];
  }

  lemma StoreReflects(start: Db, db: Db, after: Db, es: set<Event>, e: Event)
    requires Reflects(start, db, es) && IndexOfEvent(db.raws, e.eventId) == |db.raws|
    requires |after.raws| == |db.raws| + 1 && after.raws[..|db.raws|] == db.raws && after.raws[|db.raws|].event == e
    requires after.periods == db.periods + if e.payload.DeviceInvalidated? then [e.payload.period] else []
    requires after.views == db.views && after.policies == db.policies
    ensures Reflects(start, after, es + {e})
  {
    RawEventsSnoc(db.raws, after.raws);
    assert forall i | 0 <= i < |db.raws| :: after.raws[i] == db.raws[i];
    forall p
      ensures p in after.periods <==>
              p in start.periods || exists x | x in es + {e} :: x.payload == DeviceInvalidated(p)
    {
      if e.payload == DeviceInvalidated(p) {
        assert e in es + {e};
      } else {
        assert p in after.periods <==> p in db.periods;
        assert forall x | x in es + {e} && x.payload == DeviceInvalidated(p) :: x in es;
      }
    }
  }

  lemma KnownAdds(db: Db, es: set<Event>, e: Event)
    requires RawEvents(db.raws) == es && IndexOfEvent(db.raws, e.eventId) < |db.raws| && NoConflicts(es + {e})
    ensures es + {e} == es
  {
    var r := db.raws[IndexOfEvent(db.raws, e.eventId)];
    assert r in db.raws && r.event in es && r.event == e;
  }

  /** After any run the raw log holds exactly the admitted events, each once. */
  lemma {:induction false} RunReflects(c: Config, start: Db, ds: seq<Delivery>)
    requires start.raws == [] && NoConflicts(AdmittedEvents(c, start, ds))
    ensures Reflects(start, IngestAll(c, start, ds), AdmittedEvents(c, start, ds))
  {
    hide Admitted, Ingest, Reflects;
    if ds == [] {
      NothingReflects(start);
    } else {
      var init, d := ds[..|ds| - 1], ds[|ds| - 1];
      var before, es := IngestAll(c, start, init), AdmittedEvents(c, start, init);
      RunReflects(c, start, init);
      StepReflects(c, start, before, d, es);
    }
  }

  lemma NothingReflects(start: Db)
    requires start.raws == []
    ensures Reflects(start, start, {})
  {
  }

  lemma StepReflects(c: Config, start: Db, before: Db, d: Delivery, es: set<Event>)
    requires Reflects(start, before, es)
    requires Admitted(c, before, d) ==> NoConflicts(es + {d.event})
    ensures Reflects(start, Ingest(c, before, d), es + if Admitted(c, before, d) then {d.event} else {})
  {
    hide Admitted, Ingest, RawEvents, PeriodsFrom, NoConflicts, DistinctIds;
    IngestReads(c, before, d);
    if !Admitted(c, before, d) {
      assert es + {} == es;
    } else if IndexOfEvent(before.raws, d.event.eventId) < |before.raws| {
      KnownAdds(before, es, d.event);
    } else {
      StoreReflects(start, before, Ingest(c, before, d), es, d.event);
    }
  }

  /* ---- one item's events in business order ---- */

  lemma EventsOfMembers(raws: seq<RawEvent>, itemId: string, e: Event)
    ensures e in EventsOf(raws, itemId) <==> e in RawEvents(raws) && e.itemId == Some(itemId)
  {
    var rows := ItemRows(raws, itemId);
    var sorted := InsertionSort(rows, BusinessOrder());
    if e in EventsOf(raws, itemId) {
      var i :| 0 <= i < |sorted| && Contents(sorted)[i] == e;
      SameElements(rows, sorted, sorted[i]);
      FilterMapMembers(raws, OfItem(itemId), sorted[i]);
    }
    if e in RawEvents(raws) && e.itemId == Some(itemId) {
      var r :| r in raws && r.event == e;
      FilterMapMembers(raws, OfItem(itemId), r);
      SameElements(rows, sorted, r);
      var i :| 0 <= i < |sorted| && sorted[i] == r;
      assert Contents(sorted)[i] == e;
    }
  }

  /** No two rows carry the same event id. */
  ghost predicate OncePerId(rows: seq<RawEvent>)
  {
    forall i, j | 0 <= i < |rows| && 0 <= j < |rows| && i != j :: rows[i].event.eventId != rows[j].event.eventId
  }

  lemma {:induction false} FilteredOnce(raws: seq<RawEvent>, itemId: string)
    requires DistinctIds(raws)
    ensures OncePerId(ItemRows(raws, itemId))
  {
    if raws != [] {
      var init, last := raws[..|raws| - 1], raws[|raws| - 1];
      FilteredOnce(init, itemId);
      var rows := ItemRows(init, itemId);
      forall k | 0 <= k < |rows| ensures rows[k].event.eventId != last.event.eventId {
        FilterMapMembers(init, OfItem(itemId), rows[k]);
        var j :| 0 <= j < |init| && init[j] == rows[k];
      }
    }
  }

  /** No element occurs twice. */
  ghost predicate NoRepeats<T(!new)>(s: seq<T>)
  {
    forall i, j | 0 <= i < j < |s| :: s[i] != s[j]
  }

  lemma {:induction false} CountOnce<T(!new)>(s: seq<T>, x: T)
    requires NoRepeats(s)
    ensures multiset(s)[x] == if x in s then 1 else 0
  {
    if s != [] {
      var init, last := s[..|s| - 1], s[|s| - 1];
      assert s == init + [last];
      CountOnce(init, x);
    }
  }

  lemma RepeatCounts<T>(s: seq<T>, i: nat, j: nat)
    requires i < j < |s| && s[i] == s[j]
    ensures multiset(s)[s[i]] >= 2
  {
    assert s == s[..j] + [s[j]] + s[j + 1..];
    assert s[..j][i] in multiset(s[..j]);
  }

  /** Rearranging does not introduce repetitions. */
  lemma RearrangedOnce<T(!new)>(a: seq<T>, b: seq<T>)
    requires multiset(a) == multiset(b) && NoRepeats(a)
    ensures NoRepeats(b)
  {
    forall i, j | 0 <= i < j < |b| ensures b[i] != b[j] {
      CountOnce(a, b[i]);
      if b[i] == b[j] { RepeatCounts(b, i, j); }
    }
  }

  lemma SortedRowsOnce(rows: seq<RawEvent>, i: nat, j: nat)
    requires OncePerId(rows) && i < j < |InsertionSort(rows, BusinessOrder())|
    ensures var s := InsertionSort(rows, BusinessOrder()); s[i].event != s[j].event
  {
    var s := InsertionSort(rows, BusinessOrder());
    RearrangedOnce(rows, s);
    SameElements(rows, s, s[i]);
    SameElements(rows, s, s[j]);
  }

  lemma EventsOfSortedOnce(raws: seq<RawEvent>, itemId: string)
    requires DistinctIds(raws)
    ensures Sorted(EventsOf(raws, itemId), TripleOrder()) && NoRepeats(EventsOf(raws, itemId))
  {
    hide ItemRows, InsertionSort, BusinessLe, TripleLe;
    var rows := ItemRows(raws, itemId);
    var sorted := InsertionSort(rows, BusinessOrder());
    BusinessOrderTotal();
    SortSorted(rows, BusinessOrder());
    FilteredOnce(raws, itemId);
    var es := EventsOf(raws, itemId);
    forall i, j | 0 <= i < j < |es| ensures es[i] != es[j] {
      SortedRowsOnce(rows, i, j);
    }
    forall i, j | 0 <= i < j < |es| ensures TripleOrder()(es[i], es[j]) {
      assert BusinessOrder()(sorted[i], sorted[j]);
      BusinessRefines(sorted[i], sorted[j]);
    }
  }

  /** The received-at and event-id tie-breaks only decide between equal triples. */
  lemma BusinessRefines(a: RawEvent, b: RawEvent)
    requires BusinessLe(a, b)
    ensures TripleLe(a.event, b.event)
  {
  }

  lemma SameMembersSameMultiset(a: seq<Event>, b: seq<Event>)
    requires NoRepeats(a) && NoRepeats(b) && forall e :: e in a <==> e in b
    ensures multiset(a) == multiset(b)
  {
    hide NoRepeats;
    forall e ensures multiset(a)[e] == multiset(b)[e] {
      CountOnce(a, e);
      CountOnce(b, e);
    }
  }

  /** Two logs of the same events give every item the same business order. */
  lemma SameBusinessOrder(a: seq<RawEvent>, b: seq<RawEvent>, itemId: string)
    requires DistinctIds(a) && DistinctIds(b) && RawEvents(a) == RawEvents(b) && DistinctTriples(RawEvents(a))
    ensures EventsOf(a, itemId) == EventsOf(b, itemId)
  {
    hide EventsOf, RawEvents, TripleLe, NoRepeats;
    var x, y := EventsOf(a, itemId), EventsOf(b, itemId);
    EventsOfSortedOnce(a, itemId);
    EventsOfSortedOnce(b, itemId);
    forall e ensures e in x <==> e in y {
      EventsOfMembers(a, itemId, e);
      EventsOfMembers(b, itemId, e);
    }
    SameMembersSameMultiset(x, y);
    forall e, f | e in x && f in x && TripleOrder()(e, f) && TripleOrder()(f, e) ensures e == f {
      EventsOfMembers(a, itemId, e);
      EventsOfMembers(a, itemId, f);
      TripleLeAntisymmetric(e, f);
    }
    SortedUnique(x, y, TripleOrder());
  }

  /* ---- invalidations in any order ---- */

  lemma {:induction false} SameSelection<T, U>(s: seq<T>, f: T -> Option<U>, g: T -> Option<U>)
    requires forall t | t in s :: f(t) == g(t)
    ensures FilterMap(s, f) == FilterMap(s, g)
  {
    if s != [] {
      assert s == s[..|s| - 1] + [s[|s| - 1]];
      SameSelection(s[..|s| - 1], f, g);
    }
  }

  /** Replay reads invalidation periods as a set. */
  lemma PeriodsAsSet(events: seq<Event>, policies: Policies, a: seq<DevicePeriod>, b: seq<DevicePeriod>)
    requires forall p :: p in a <==> p in b
    ensures Replayed(events, policies, a) == Replayed(events, policies, b)
  {
    hide RunsOf, RegistrationOf, MarkConflicts, EvaluateTrust, FilterMap;
    forall e | e in events ensures Observe(policies, a)(e) == Observe(policies, b)(e) {
      if e.payload.InspectionDone? {
        assert IsInvalidated(a, e.payload.inspection.device, e.occurredAt) ==
            IsInvalidated(b, e.payload.inspection.device, e.occurredAt);
      }
    }
    SameSelection(events, Observe(policies, a), Observe(policies, b));
  }

  /** Delivery-order independence. Two runs of deliveries that admit the same set of events, whatever their order,
      duplicates, reception times and ciphertexts, replay to the same operation runs, observations, trust statuses,
      machine events and operator actions for every item, and a rebuild then shows the same rows. */
  lemma OrderIndependent(c: Config, start: Db, ds: seq<Delivery>, other: seq<Delivery>, itemId: string)
    requires start.raws == []
    requires AdmittedEvents(c, start, ds) == AdmittedEvents(c, start, other)
    requires NoConflicts(AdmittedEvents(c, start, ds)) && DistinctTriples(AdmittedEvents(c, start, ds))
    ensures var a, b := IngestAll(c, start, ds), IngestAll(c, start, other);
            && FromScratch(a, itemId) == FromScratch(b, itemId)
            && ViewsAt(Rebuild(a, itemId), itemId) == ViewsAt(Rebuild(b, itemId), itemId)
  {
    hide Replayed, IngestAll, NoConflicts, DistinctTriples, AdmittedEvents, EventsOf, RawEvents, DistinctIds, Rebuild;
    var a, b := IngestAll(c, start, ds), IngestAll(c, start, other);
    RunReflects(c, start, ds);
    RunReflects(c, start, other);
    SameBusinessOrder(a.raws, b.raws, itemId);
    forall p ensures p in a.periods <==> p in b.periods { }
    PeriodsAsSet(EventsOf(a.raws, itemId), start.policies, a.periods, b.periods);
    RebuiltViews(a, itemId);
    RebuiltViews(b, itemId);
  }

  lemma RebuiltViews(db: Db, itemId: string)
    ensures ViewsAt(Rebuild(db, itemId), itemId) == if EventsOf(db.raws, itemId) == [] then ViewsAt(db, itemId)
                                                     else ViewsOf(FromScratch(db, itemId))
  {
    hide ItemRows, ViewsOf, FromScratch, RoutesAfter, SightingsFor, MaxSeq;
    var rows := ItemRows(db.raws, itemId);
    var sorted := InsertionSort(rows, BusinessOrder());
    assert |multiset(sorted)| == |multiset(rows)|;
    assert |sorted| == |multiset(sorted)| && |rows| == |multiset(rows)|;
  }
}
