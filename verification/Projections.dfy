/** backend/app/projections/rebuild.py and the callers that decide when it runs: the projection tables as a cache
    of replay, and the agreement every run keeps. */
module Projections {
  import opened Basics
  import opened Sorting
  import opened Events
  import opened BirthWindow
  import opened Replay
  import opened Routes
  import opened Limitations
  import opened DefectBook
  import opened RawLog
  import opened Store

  /* ---- rebuild_item ---- */

  function DefectRowsUpTo(o: Observation, n: nat): seq<DefectRow>
    requires n <= |o.inspection.defects|
  {
    if n == 0 then []
    else
      var d := o.inspection.defects[n - 1];
      DefectRowsUpTo(o, n - 1) + [DefectRow(o.eventId, d.defectType, Or(d.component, o.inspection.component))]
  }

  function DefectRowsOf(os: seq<Observation>): seq<DefectRow>
  {
    if os == [] then []
    else DefectRowsOf(os[..|os| - 1]) + DefectRowsUpTo(os[|os| - 1], |os[|os| - 1].inspection.defects|)
  }

  function ViewsOf(p: Projection): Views
  {
    Views(p.observations, DefectRowsOf(p.observations), p.runs, p.machines, p.actions)
  }

  /** From-scratch replay of all raw events of an item under all invalidations. */
  function FromScratch(db: Db, itemId: string): Projection
  {
    Replayed(EventsOf(db.raws, itemId), db.policies, db.periods)
  }

  function RoutesAfter(db: Db, itemId: string): RouteDb
  {
    match FromScratch(db, itemId).registration
    case None => db.routes
    case Some((reg, at)) => Registered(db.routes, itemId, reg, at)
  }

  function StepsOf(routes: RouteDb, itemId: string): seq<Routes.Step>
  {
    if itemId in routes.items && routes.items[itemId].pinned.Some? &&
        routes.items[itemId].pinned.value < |routes.revisions|
    then routes.revisions[routes.items[itemId].pinned.value].steps else []
  }

  function LimitationsFor(db: Db, itemId: string): seq<Evidence>
  {
    var p := FromScratch(db, itemId);
    MissingChecks(StepsOf(RoutesAfter(db, itemId), itemId), p.runs, p.observations)
  }

  function SightingsFor(db: Db, itemId: string): seq<Sighting>
  {
    var p := FromScratch(db, itemId);
    Sightings(p.observations, p, LimitationsFor(db, itemId))
  }

  function Rebuild(db: Db, itemId: string): Db
  {
    var rows := ItemRows(db.raws, itemId);
    var state := StateAt(db, itemId);
    if rows == [] then db.(states := db.states[itemId := state.(status := UpToDate)])
    else
      db.(views := db.views[itemId := ViewsOf(FromScratch(db, itemId))],
          routes := RoutesAfter(db, itemId),
          book := LinkAll(db.book, itemId, SightingsFor(db, itemId)),
          states := db.states[itemId := ProjectionState(MaxSeq(rows), MaxSeq(rows), state.version + 1, UpToDate)])
  }

  method WriteDefectRows(os: seq<Observation>) returns (rows: seq<DefectRow>)
    ensures rows == DefectRowsOf(os)
  {
    rows := [];
    for i := 0 to |os|
      invariant rows == DefectRowsOf(os[..i])
    {
      assert os[..i + 1][..i] == os[..i];
      var o := os[i];
      var before := rows;
      for j := 0 to |o.inspection.defects|
        invariant rows == before + DefectRowsUpTo(o, j)
      {
        var d := o.inspection.defects[j];
        rows := rows + [DefectRow(o.eventId, d.defectType, Or(d.component, o.inspection.component))];
      }
    }
    assert os[..|os|] == os;
  }

  /** The item row, the missing checks and the defect loop. */
  method Publish(db: Database, itemId: string, p: Projection)
    modifies db.routeStore, db.register
    ensures var routes := match p.registration
                          case None => old(db.routeStore.Tables())
                          case Some((reg, at)) => Registered(old(db.routeStore.Tables()), itemId, reg, at);
            && db.routeStore.Tables() == routes
            && db.register.Contents() == LinkAll(old(db.register.Contents()), itemId,
                 Sightings(p.observations, p, MissingChecks(StepsOf(routes, itemId), p.runs, p.observations)))
  {
    if p.registration.Some? {
      var (reg, at) := p.registration.value;
      db.routeStore.RegisterItem(itemId, reg, at);
    }
    var limitations := FindMissingChecks(StepsOf(db.routeStore.Tables(), itemId), p.runs, p.observations);
    db.register.RecordDefects(itemId, p, limitations);
  }

  /** rebuild_item, when it runs to its commit. */
  method RebuildItem(db: Database, itemId: string)
    modifies db`states, db`views, db.routeStore, db.register
    ensures db.Snapshot() == Rebuild(old(db.Snapshot()), itemId)
  {
    hide Replayed, LinkAll, Sightings, MissingChecks, DefectRowsOf, InsertionSort, MaxSeq, FilterMap, Registered,
         StepsOf;
    var state := StateAt(db.Snapshot(), itemId);
    var rows := ItemRows(db.raws, itemId);
    if rows == [] {
      db.states := db.states[itemId := state.(status := UpToDate)];
      return;
    }
    var p := ReplayEvents(EventsOf(db.raws, itemId), db.policies, db.periods);
    var defectRows := WriteDefectRows(p.observations);
    Publish(db, itemId, p);
    db.views := db.views[itemId := Views(p.observations, defectRows, p.runs, p.machines, p.actions)];
    db.states := db.states[itemId := ProjectionState(MaxSeq(rows), MaxSeq(rows), state.version + 1, UpToDate)];
  }

  /** A rebuild that raised: everything rolled back, then mark_projection_failed. */
  function MarkFailed(db: Db, itemId: string): Db
  {
    db.(states := db.states[itemId := StateAt(db, itemId).(status := Failed)])
  }

  method MarkProjectionFailed(db: Database, itemId: string)
    modifies db`states
    ensures db.Snapshot() == MarkFailed(old(db.Snapshot()), itemId)
  {
    var state := if itemId in db.states then db.states[itemId] else NEW_STATE;
    db.states := db.states[itemId := state.(status := Failed)];
  }

  /* ---- recovery and human invalidation ---- */

  /** The where clause of recover_stale_projections. */
  predicate Picked(s: ProjectionState)
  {
    s.latest > s.projected || s.status in {Stale, Failed, Rebuilding}
  }

  function RecoverEach(db: Db, ids: seq<string>, failing: set<string>): Db
  {
    if ids == [] then db
    else
      var before, id := RecoverEach(db, ids[..|ids| - 1], failing), ids[|ids| - 1];
      if id in failing then MarkFailed(before, id) else Rebuild(before, id)
  }

  /** recover_stale_projections; ids is what its query returned, failing the items whose rebuild raises. */
  method RecoverStale(db: Database, ids: seq<string>, failing: set<string>) returns (recovered: seq<string>)
    modifies db, db.routeStore, db.register
    ensures db.Snapshot() == RecoverEach(old(db.Snapshot()), ids, failing)
    ensures forall id :: id in recovered <==> id in ids && id !in failing
  {
    hide Rebuild, MarkFailed;
    recovered := [];
    for n := 0 to |ids|
      invariant db.Snapshot() == RecoverEach(old(db.Snapshot()), ids[..n], failing)
      invariant forall id :: id in recovered <==> id in ids[..n] && id !in failing
    {
      assert ids[..n + 1] == ids[..n] + [ids[n]];
      if ids[n] in failing {
        MarkProjectionFailed(db, ids[n]);
      } else {
        RebuildItem(db, ids[n]);
        recovered := recovered + [ids[n]];
      }
    }
    assert ids[..|ids|] == ids;
  }

  function WithPeriod(db: Db, p: DevicePeriod): Db
  {
    db.(periods := db.periods + [p])
  }

  /** How many items of the list are rebuilt before a rebuild raises. */
  function StopAt(ids: seq<string>, failing: set<string>): (n: nat)
    ensures n <= |ids|
    ensures n < |ids| ==> ids[n] in failing
    ensures forall k | 0 <= k < n :: ids[k] !in failing
  {
    if ids == [] || ids[0] in failing then 0 else 1 + StopAt(ids[1..], failing)
  }

  /** invalidate_device of backend/app/api/risk.py. Every rebuild commits, the first one together with the period; a
      rebuild that raises ends the loop, and when it is the first the period is rolled back too. */
  function InvalidatedBy(db: Db, p: DevicePeriod, ids: seq<string>, failing: set<string>): Db
  {
    var n := StopAt(ids, failing);
    if n == 0 && ids != [] then db else RecoverEach(WithPeriod(db, p), ids[..n], {})
  }

  /** invalidate_device; ids is the sorted list of affected items, failing the items whose rebuild raises. */
  method InvalidateDevice(db: Database, p: DevicePeriod, ids: seq<string>, failing: set<string>) returns (ok: bool)
    requires forall id :: id in ids <==> id in Affected(db.views, p)
    modifies db, db.routeStore, db.register
    ensures db.Snapshot() == InvalidatedBy(old(db.Snapshot()), p, ids, failing)
    ensures ok <==> StopAt(ids, failing) == |ids|
  {
    hide Rebuild, Affected;
    var before := db.periods;
    db.periods := db.periods + [p];
    ghost var start := db.Snapshot();
    for n := 0 to |ids|
      invariant forall k | 0 <= k < n :: ids[k] !in failing
      invariant db.Snapshot() == RecoverEach(start, ids[..n], {})
    {
      assert ids[..n + 1][..n] == ids[..n];
      if ids[n] in failing {
        assert StopAt(ids, failing) == n;
        if n == 0 {
          db.periods := before;
        }
        return false;
      }
      RebuildItem(db, ids[n]);
    }
    assert ids[..|ids|] == ids;
    ok := true;
  }

  /* ---- cache agreement ---- */

  /** The cached rows of an item are what replaying its raw events from scratch gives. */
  ghost predicate Agrees(db: Db, itemId: string)
  {
    ViewsAt(db, itemId) == ViewsOf(FromScratch(db, itemId))
  }

  /** The bookkeeping of one item's projection state; agreement is demanded of up-to-date items outside pending. */
  ghost predicate StateCoherent(rows: seq<RawEvent>, s: ProjectionState, agrees: bool)
  {
    && s.latest == MaxSeq(rows)
    && s.projected <= s.latest
    && (s.status.UpToDate? ==> s.projected == s.latest && agrees)
  }

  ghost predicate CoherentExcept(db: Db, pending: set<string>)
  {
    && (forall i | i in db.states ::
          i != "" && StateCoherent(ItemRows(db.raws, i), db.states[i], i in pending || Agrees(db, i)))
    && (forall i | i in db.views :: i != "" && ItemRows(db.raws, i) != [])
    && (forall i | i != "" && ItemRows(db.raws, i) != [] :: i in db.states)
  }

  ghost predicate Coherent(db: Db)
  {
    CoherentExcept(db, {})
  }

  lemma EmptyReplay(db: Db, itemId: string)
    requires ItemRows(db.raws, itemId) == []
    ensures ViewsOf(FromScratch(db, itemId)) == NO_VIEWS
  {
  }

  /** What a transaction that only concerns one item leaves alone. */
  ghost predicate OnlyItem(db: Db, after: Db, itemId: string)
  {
    && after.raws == db.raws && after.policies == db.policies && after.periods == db.periods
    && itemId in after.states && after.states.Keys == db.states.Keys + {itemId}
    && (forall i | i in db.states && i != itemId :: after.states[i] == db.states[i])
    && (forall i | i != itemId :: ViewsAt(after, i) == ViewsAt(db, i))
    && (forall i | i in after.views && i !in db.views :: i == itemId && ItemRows(db.raws, itemId) != [])
  }

  lemma OnlyItemCoherent(db: Db, after: Db, itemId: string, pending: set<string>, pendingAfter: set<string>)
    requires CoherentExcept(db, pending) && itemId != "" && OnlyItem(db, after, itemId)
    requires pending - {itemId} <= pendingAfter
    requires StateCoherent(ItemRows(db.raws, itemId), after.states[itemId],
                           itemId in pendingAfter || Agrees(after, itemId))
    ensures CoherentExcept(after, pendingAfter)
  {
    hide Replayed, DefectRowsOf, InsertionSort, MaxSeq, FilterMap;
    forall i | i in after.states
      ensures i != "" && StateCoherent(ItemRows(after.raws, i), after.states[i], i in pendingAfter || Agrees(after, i))
    {
      if i != itemId {
        assert FromScratch(after, i) == FromScratch(db, i) && ViewsAt(after, i) == ViewsAt(db, i);
      }
    }
  }

  lemma RebuildOnlyItem(db: Db, itemId: string)
    requires itemId in db.views ==> ItemRows(db.raws, itemId) != []
    requires itemId in db.states ==> StateCoherent(ItemRows(db.raws, itemId), db.states[itemId], true)
    ensures var after := Rebuild(db, itemId);
            && OnlyItem(db, after, itemId)
            && after.states[itemId].status.UpToDate?
            && StateCoherent(ItemRows(db.raws, itemId), after.states[itemId], Agrees(after, itemId))
  {
    hide LinkAll, SightingsFor, RoutesAfter, ItemRows, EventsOf, ViewsOf, Replayed;
    var after := Rebuild(db, itemId);
    if ItemRows(db.raws, itemId) == [] {
      EmptyReplay(db, itemId);
    }
    assert FromScratch(after, itemId) == FromScratch(db, itemId);
  }

  lemma RebuildCoherent(db: Db, itemId: string, pending: set<string>)
    requires CoherentExcept(db, pending) && itemId != ""
    ensures CoherentExcept(Rebuild(db, itemId), pending - {itemId})
    ensures OnlyItem(db, Rebuild(db, itemId), itemId) && Rebuild(db, itemId).states[itemId].status.UpToDate?
  {
    hide Rebuild;
    RebuildOnlyItem(db, itemId);
    OnlyItemCoherent(db, Rebuild(db, itemId), itemId, pending, pending - {itemId});
  }

  lemma FailureCoherent(db: Db, itemId: string, pending: set<string>)
    requires CoherentExcept(db, pending) && itemId != ""
    ensures CoherentExcept(MarkFailed(db, itemId), pending)
    ensures OnlyItem(db, MarkFailed(db, itemId), itemId)
  {
    hide FromScratch, ItemRows, ViewsOf;
    OnlyItemCoherent(db, MarkFailed(db, itemId), itemId, pending, pending);
  }

  function Done(ids: seq<string>, failing: set<string>): set<string>
  {
    set i | i in ids && i !in failing
  }

  /** What a loop of rebuilds does to the tables, item by item. */
  ghost predicate Brought(db: Db, after: Db, ids: seq<string>, failing: set<string>)
  {
    && after.raws == db.raws && after.policies == db.policies && after.periods == db.periods
    && after.states.Keys == db.states.Keys + Done(ids, {})
    && (forall i | i in Done(ids, failing) :: after.states[i].status.UpToDate?)
    && (forall i | i in db.states && i !in ids :: after.states[i] == db.states[i])
    && (forall i | i !in ids :: ViewsAt(after, i) == ViewsAt(db, i))
  }

  lemma BroughtOneMore(db: Db, before: Db, after: Db, ids: seq<string>, id: string, failing: set<string>)
    requires Brought(db, before, ids, failing) && OnlyItem(before, after, id)
    requires id !in failing ==> after.states[id].status.UpToDate?
    ensures Brought(db, after, ids + [id], failing)
  {
    hide ViewsAt, ItemRows;
    assert Done(ids + [id], {}) == Done(ids, {}) + {id};
    forall i | i in Done(ids + [id], failing) ensures after.states[i].status.UpToDate? {
      if i != id { assert i in Done(ids, failing); }
    }
  }

  lemma BroughtNone(db: Db, failing: set<string>, pending: set<string>)
    ensures Brought(db, db, [], failing) && pending - Done([], failing) == pending
  {
  }

  lemma DoneSnoc(ids: seq<string>, id: string, failing: set<string>)
    ensures Done(ids + [id], failing) == if id in failing then Done(ids, failing) else Done(ids, failing) + {id}
  {
  }

  /** After rebuilding a list of items, only those outside it, or failing in it, may still be pending. */
  lemma {:induction false} RecoverEachCoherent(db: Db, ids: seq<string>, failing: set<string>, pending: set<string>)
    requires CoherentExcept(db, pending) && "" !in ids
    ensures CoherentExcept(RecoverEach(db, ids, failing), pending - Done(ids, failing))
    ensures Brought(db, RecoverEach(db, ids, failing), ids, failing)
  {
    hide Rebuild, MarkFailed, CoherentExcept, Brought, OnlyItem, Done;
    if ids == [] {
      BroughtNone(db, failing, pending);
    } else {
      var init, id := ids[..|ids| - 1], ids[|ids| - 1];
      assert ids == init + [id];
      var before := RecoverEach(db, init, failing);
      RecoverEachCoherent(db, init, failing, pending);
      if id in failing {
        FailureCoherent(before, id, pending - Done(init, failing));
        BroughtOneMore(db, before, MarkFailed(before, id), init, id, failing);
        DoneSnoc(init, id, failing);
      } else {
        RebuildCoherent(before, id, pending - Done(init, failing));
        BroughtOneMore(db, before, Rebuild(before, id), init, id, failing);
        DoneSnoc(init, id, failing);
        assert pending - Done(init, failing) - {id} == pending - Done(ids, failing);
      }
    }
  }

  /** The key lemma: the affected-items query misses no item whose cached observations agree and whose replay the new
      period would change. */
  lemma AffectedMissesNothing(db: Db, p: DevicePeriod, itemId: string)
    requires Agrees(db, itemId)
    requires FromScratch(WithPeriod(db, p), itemId) != FromScratch(db, itemId)
    ensures itemId in Affected(db.views, p)
  {
    PeriodChangesReplayIff(EventsOf(db.raws, itemId), db.policies, db.periods, p);
    var o :| o in FromScratch(db, itemId).observations && Covers(p, o.inspection.device, o.at) && !Settled(o.trust);
    assert o in ViewsAt(db, itemId).observations && Queried(p, o);
  }

  /** Recording a period leaves agreement pending only for the affected items. */
  lemma PeriodCoherent(db: Db, p: DevicePeriod)
    requires Coherent(db)
    ensures CoherentExcept(WithPeriod(db, p), Affected(db.views, p))
  {
    hide Replayed, FilterMap, InsertionSort, MaxSeq;
    var after := WithPeriod(db, p);
    var pending := Affected(db.views, p);
    forall i | i in after.states
      ensures StateCoherent(ItemRows(after.raws, i), after.states[i], i in pending || Agrees(after, i))
    {
      if Agrees(db, i) && FromScratch(after, i) != FromScratch(db, i) {
        AffectedMissesNothing(db, p, i);
      }
    }
  }

  /** The period can no longer change the trust of any cached observation it covers. */
  ghost predicate SettledFor(v: Views, p: DevicePeriod)
  {
    forall o | o in v.observations && Queried(p, o) :: Settled(o.trust)
  }

  /** An agreeing item that is left alone after a period was recorded agrees exactly when the period changes nothing. */
  lemma AgreementLeftIff(db: Db, after: Db, p: DevicePeriod, i: string)
    requires p.device != "" && Agrees(db, i)
    requires after.raws == db.raws && after.policies == db.policies && after.periods == db.periods + [p]
    requires ViewsAt(after, i) == ViewsAt(db, i)
    ensures Agrees(after, i) <==> SettledFor(ViewsAt(db, i), p)
  {
    hide ItemRows, EventsOf, DefectRowsOf;
    PeriodChangesReplayIff(EventsOf(db.raws, i), db.policies, db.periods, p);
    assert forall o :: Queried(p, o) <==> Covers(p, o.inspection.device, o.at);
  }

  /** The loop stops at its first item, or no up-to-date item it leaves out has a covered observation whose trust the
      period would still change. */
  ghost predicate Harmless(db: Db, p: DevicePeriod, ids: seq<string>, failing: set<string>)
  {
    var n := StopAt(ids, failing);
    || (n == 0 && ids != [])
    || forall i | i in ids[n..] && i !in ids[..n] && i in db.states && db.states[i].status.UpToDate? ::
         SettledFor(ViewsAt(db, i), p)
  }

  /** A human invalidation keeps agreement exactly when it is harmless. When its loop stops at the first item nothing
      was committed; when it stops later the period is committed already, and the items left out decide. */
  lemma InvalidationCoherentIff(db: Db, p: DevicePeriod, ids: seq<string>, failing: set<string>)
    requires Coherent(db) && p.device != "" && forall id :: id in ids <==> id in Affected(db.views, p)
    ensures Coherent(InvalidatedBy(db, p, ids, failing)) <==> Harmless(db, p, ids, failing)
  {
    hide Agrees, ItemRows, MaxSeq, Affected, RecoverEach, SettledFor, ViewsAt;
    var n := StopAt(ids, failing);
    if n > 0 || ids == [] {
      NamesGiven(db, p, ids);
      var start, done := WithPeriod(db, p), ids[..n];
      var after := InvalidatedBy(db, p, ids, failing);
      assert ids == done + ids[n..];
      PeriodCoherent(db, p);
      RecoverEachCoherent(start, done, {}, Affected(db.views, p));
      forall i | i in ids[n..] && i !in done && i in db.states && db.states[i].status.UpToDate?
        ensures Agrees(after, i) <==> SettledFor(ViewsAt(db, i), p)
      {
        ViewsIgnorePeriods(db, p, i);
        AgreementLeftIff(db, after, p, i);
      }
    }
  }

  lemma NamesGiven(db: Db, p: DevicePeriod, ids: seq<string>)
    requires Coherent(db) && forall id :: id in ids <==> id in Affected(db.views, p)
    ensures "" !in ids
  {
    hide StateCoherent, ItemRows, Queried;
  }

  lemma ViewsIgnorePeriods(db: Db, p: DevicePeriod, i: string)
    ensures ViewsAt(WithPeriod(db, p), i) == ViewsAt(db, i)
  {
  }

  /** In particular it keeps agreement when all its rebuilds succeed, and a stop at the first item changes nothing. */
  lemma InvalidationCoherent(db: Db, p: DevicePeriod, ids: seq<string>, failing: set<string>)
    requires Coherent(db) && p.device != "" && forall id :: id in ids <==> id in Affected(db.views, p)
    requires StopAt(ids, failing) == |ids| || StopAt(ids, failing) == 0
    ensures Coherent(InvalidatedBy(db, p, ids, failing))
    ensures StopAt(ids, failing) < |ids| ==> InvalidatedBy(db, p, ids, failing) == db
  {
    hide Coherent, Affected, RecoverEach;
    InvalidationCoherentIff(db, p, ids, failing);
  }
}
