/** backend/app/ingestion/service.py: ingest_event as one atomic step per delivery. */
module Ingestion {
  import opened Basics
  import opened Framing
  import opened Events
  import opened IntegrityChain
  import opened RawLog
  import opened Store

  /** Keys, the content hash and the data key id that settings provide. */
  datatype Config = Config(keys: Keys, hash: Event -> bytes, keyId: bytes)

  /** One call: what the transport claims, the outcome of authentication and schema validation and of the line and
      station scope checks, the validated event, and the ciphertext and nonce its encryption yields. */
  datatype Delivery = Delivery(
    headerSource: Option<string>, claimedId: Option<string>, authError: Option<string>, scopeError: Option<string>,
    event: Event, receivedAt: int, ciphertext: bytes, nonce: bytes)

  /** Envelope and payload rules that the typed event does not already express. */
  predicate WellFormed(e: Event)
  {
    match e.payload
    case ItemRegistered(_) => Given(e.itemId)
    case OperationStarted(_) => Given(e.itemId) && Given(e.runId)
    case OperationFinished(_) => Given(e.itemId) && Given(e.runId)
    case InspectionDone(o) => Given(e.itemId) && (o.result.DefectDetected? <==> o.defects != [])
    case DeviceInvalidated(p) => p.device != "" && p.affectedFrom <= p.affectedTo
    case _ => true
  }

  /** The error code of the TraceQError raised before anything is stored, if any. */
  function Refusal(sources: map<string, Source>, d: Delivery): Option<string>
  {
    if d.headerSource.None? then Some("SOURCE_AUTH_REQUIRED")
    else if d.headerSource.value !in sources then Some("INVALID_SOURCE_CREDENTIALS")
    else if d.authError.Some? then d.authError
    else if !WellFormed(d.event) then Some("EVENT_SCHEMA_VALIDATION_ERROR")
    else
      var source := sources[d.headerSource.value];
      if d.event.sourceId != d.headerSource.value || d.event.sourceType != source.sourceType
      then Some("SOURCE_IDENTITY_MISMATCH")
      else if EventType(d.event.payload) !in source.allowedTypes then Some("EVENT_TYPE_NOT_ALLOWED")
      else if d.scopeError.Some? then d.scopeError
      else if d.event.payload.DeviceInvalidated? && source.sourceType != "calibration_system"
      then Some("SOURCE_SCOPE_VIOLATION")
      else None
  }

  /** max(source.last_source_sequence or -1, event.source.sequence) */
  function NextSequence(last: Option<nat>, sequence: Option<nat>): Option<nat>
  {
    if sequence.None? then last
    else
      var previous: int := if last.Some? && last.value != 0 then last.value else -1;
      if previous > sequence.value then Some(previous) else sequence
  }

  function Sequenced(sources: map<string, Source>, e: Event): map<string, Source>
    requires e.sourceId in sources
  {
    var source := sources[e.sourceId];
    sources[e.sourceId := source.(lastSequence := NextSequence(source.lastSequence, e.sequence))]
  }

  function StreamId(e: Event): string
  {
    "source:" + e.sourceId
  }

  function StreamAt(streams: map<string, Stream>, id: string): Stream
  {
    if id in streams then streams[id] else Stream(0, [], StreamOk)
  }

  function MetadataFor(e: Event, receivedAt: int, seqNo: nat): Metadata
  {
    Metadata(e.eventId, EventType(e.payload), e.schemaVersion, e.sourceId, e.occurredAt, receivedAt, StreamId(e), seqNo)
  }

  function MacFor(c: Config, stream: Stream, d: Delivery): Option<bytes>
  {
    ComputeMac(c.keys, stream.lastMac, MetadataFor(d.event, d.receivedAt, stream.lastSeq + 1), d.ciphertext, d.nonce,
      c.keyId)
  }

  function RowFor(c: Config, raws: seq<RawEvent>, stream: Stream, d: Delivery, mac: bytes): RawEvent
  {
    RawEvent(d.event, d.receivedAt, |raws| + 1, c.hash(d.event),
             Link(MetadataFor(d.event, d.receivedAt, stream.lastSeq + 1), d.ciphertext, d.nonce, c.keyId,
               stream.lastMac, mac))
  }

  function MarkStale(states: map<string, ProjectionState>, items: set<string>): map<string, ProjectionState>
  {
    map i | i in states :: if i in items then states[i].(status := Stale) else states[i]
  }

  function Max(a: nat, b: nat): nat
  {
    if a < b then b else a
  }

  function Noted(db: Db, e: Event, ingestSeq: nat): map<string, ProjectionState>
  {
    match ItemOf(e)
    case None => db.states
    case Some(i) => db.states[i := StateAt(db, i).(latest := Max(StateAt(db, i).latest, ingestSeq), status := Stale)]
  }

  function Stored(c: Config, db: Db, d: Delivery, mac: bytes): Db
    requires d.event.sourceId in db.sources
  {
    var e := d.event;
    var stream := StreamAt(db.streams, StreamId(e));
    var raw := RowFor(c, db.raws, stream, d, mac);
    var states := Noted(db, e, raw.ingestSeq);
    db.(raws := db.raws + [raw],
        streams := db.streams[StreamId(e) := stream.(lastSeq := stream.lastSeq + 1, lastMac := mac)],
        sources := Sequenced(db.sources, e),
        states := if e.payload.DeviceInvalidated? then MarkStale(states, Affected(db.views, e.payload.period))
          else states,
        periods := if e.payload.DeviceInvalidated? then db.periods + [e.payload.period] else db.periods,
        attempts := db.attempts + [Attempt(Some(e.sourceId), Some(e.eventId), Accepted, None)])
  }

  /** A delivery that raises OverflowError while framing: nothing of it is committed. */
  predicate Overflows(c: Config, db: Db, d: Delivery)
  {
    && Refusal(db.sources, d).None?
    && IndexOfEvent(db.raws, d.event.eventId) == |db.raws|
    && MacFor(c, StreamAt(db.streams, StreamId(d.event)), d).None?
  }

  function Ingest(c: Config, db: Db, d: Delivery): Db
  {
    match Refusal(db.sources, d)
    case Some(code) => db.(attempts := db.attempts + [Attempt(d.headerSource, d.claimedId, Rejected, Some(code))])
    case None =>
      var e := d.event;
      var k := IndexOfEvent(db.raws, e.eventId);
      if k < |db.raws| then
        var same := db.raws[k].contentHash == c.hash(e);
        db.(sources := Sequenced(db.sources, e),
            attempts := db.attempts + [Attempt(Some(e.sourceId), Some(e.eventId), if same then Duplicate else Conflict,
                                               if same then None else Some("EVENT_ID_CONFLICT"))])
      else
        match MacFor(c, StreamAt(db.streams, StreamId(e)), d)
        case None => db
        case Some(mac) => Stored(c, db, d, mac)
  }

  method StaleAffected(db: Database, affected: set<string>)
    modifies db`states
    ensures db.states == MarkStale(old(db.states), affected)
  {
    var todo := affected;
    while todo != {}
      invariant todo <= affected
      invariant db.states == MarkStale(old(db.states), affected - todo)
    {
      var i :| i in todo;
      if i in db.states {
        db.states := db.states[i := db.states[i].(status := Stale)];
      }
      todo := todo - {i};
    }
    assert affected - {} == affected;
  }

  method NoteItem(db: Database, e: Event, ingestSeq: nat)
    modifies db`states
    ensures db.states == Noted(old(db.Snapshot()), e, ingestSeq)
  {
    if Given(e.itemId) {
      var i := e.itemId.value;
      var projection := if i in db.states then db.states[i] else NEW_STATE;
      projection := projection.(latest := if projection.latest < ingestSeq then ingestSeq else projection.latest);
      db.states := db.states[i := projection.(status := Stale)];
    }
  }

  method NoteInvalidation(db: Database, p: DevicePeriod)
    modifies db`states, db`periods
    ensures db.periods == old(db.periods) + [p]
    ensures db.states == MarkStale(old(db.states), Affected(db.views, p))
  {
    db.periods := db.periods + [p];
    StaleAffected(db, Affected(db.views, p));
  }

  /** The accepting part of ingest_event, once the MAC is computed. */
  method StoreEvent(c: Config, db: Database, d: Delivery, stream: Stream, mac: bytes)
    requires d.event.sourceId in db.sources
    requires stream == StreamAt(db.streams, StreamId(d.event))
    modifies db
    ensures db.Snapshot() == Stored(c, old(db.Snapshot()), d, mac)
  {
    hide MarkStale, Affected, StreamAt;
    var e := d.event;
    var raw := RowFor(c, db.raws, stream, d, mac);
    NoteItem(db, e, raw.ingestSeq);
    if e.payload.DeviceInvalidated? {
      NoteInvalidation(db, e.payload.period);
    }
    db.sources := Sequenced(db.sources, e);
    db.raws := db.raws + [raw];
    db.streams := db.streams[StreamId(e) := stream.(lastSeq := stream.lastSeq + 1, lastMac := mac)];
    db.attempts := db.attempts + [Attempt(Some(e.sourceId), Some(e.eventId), Accepted, None)];
  }

  /** What the caller of ingest_event sees: the code of an exception, or None for an acceptance or a duplicate. */
  function ErrorOf(c: Config, db: Db, d: Delivery): Option<string>
  {
    if Refusal(db.sources, d).Some? then Refusal(db.sources, d)
    else if Overflows(c, db, d) then Some("OverflowError")
    else
      var k := IndexOfEvent(db.raws, d.event.eventId);
      if k < |db.raws| && db.raws[k].contentHash != c.hash(d.event) then Some("EVENT_ID_CONFLICT") else None
  }

  /** ingest_event */
  method IngestEvent(c: Config, db: Database, d: Delivery) returns (error: Option<string>)
    modifies db
    ensures db.Snapshot() == Ingest(c, old(db.Snapshot()), d)
    ensures error == ErrorOf(c, old(db.Snapshot()), d)
  {
    error := Refusal(db.sources, d);
    if error.Some? {
      db.attempts := db.attempts + [Attempt(d.headerSource, d.claimedId, Rejected, error)];
      return;
    }
    var e := d.event;
    var k := IndexOfEvent(db.raws, e.eventId);
    if k < |db.raws| {
      var same := db.raws[k].contentHash == c.hash(e);
      error := if same then None else Some("EVENT_ID_CONFLICT");
      db.attempts := db.attempts +
        [Attempt(Some(e.sourceId), Some(e.eventId), if same then Duplicate else Conflict, error)];
      db.sources := Sequenced(db.sources, e);
      return;
    }
    var stream := StreamAt(db.streams, StreamId(e));
    var metadata := MetadataFor(e, d.receivedAt, stream.lastSeq + 1);
    var mac := ComputeMac(c.keys, stream.lastMac, metadata, d.ciphertext, d.nonce, c.keyId);
    if mac.None? {
      error := Some("OverflowError");
      return;
    }
    StoreEvent(c, db, d, stream, mac.value);
  }

  function IngestAll(c: Config, db: Db, ds: seq<Delivery>): Db
  {
    if ds == [] then db else Ingest(c, IngestAll(c, db, ds[..|ds| - 1]), ds[|ds| - 1])
  }

  /* ---- accounting ---- */

  function CountStatus(attempts: seq<Attempt>, s: AttemptStatus): nat
  {
    if attempts == [] then 0
    else CountStatus(attempts[..|attempts| - 1], s) + if attempts[|attempts| - 1].status == s then 1 else 0
  }

  ghost function SumLast(streams: map<string, Stream>, ids: set<string>): nat
    requires ids <= streams.Keys
  {
    if ids == {} then 0 else var i :| i in ids; streams[i].lastSeq + SumLast(streams, ids - {i})
  }

  lemma {:induction false} SumLastSplit(streams: map<string, Stream>, ids: set<string>, x: string)
    requires ids <= streams.Keys && x in ids
    ensures SumLast(streams, ids) == streams[x].lastSeq + SumLast(streams, ids - {x})
  {
    var i :| i in ids && SumLast(streams, ids) == streams[i].lastSeq + SumLast(streams, ids - {i});
    if i != x {
      SumLastSplit(streams, ids - {i}, x);
      SumLastSplit(streams, ids - {x}, i);
      assert ids - {i} - {x} == ids - {x} - {i};
    }
  }

  lemma {:induction false} SumLastSame(a: map<string, Stream>, b: map<string, Stream>, ids: set<string>)
    requires ids <= a.Keys && ids <= b.Keys && forall i | i in ids :: a[i].lastSeq == b[i].lastSeq
    ensures SumLast(a, ids) == SumLast(b, ids)
  {
    if ids != {} {
      var i :| i in ids;
      SumLastSplit(a, ids, i);
      SumLastSplit(b, ids, i);
      SumLastSame(a, b, ids - {i});
    }
  }

  /** The books balance: unique ids, ingest numbers are positions, accepted attempts = raw events = sum of last_seq. */
  ghost predicate Balanced(db: Db)
  {
    && (forall i, j | 0 <= i < j < |db.raws| :: db.raws[i].event.eventId != db.raws[j].event.eventId)
    && (forall i | 0 <= i < |db.raws| :: db.raws[i].ingestSeq == i + 1)
    && CountStatus(db.attempts, Accepted) == |db.raws|
    && SumLast(db.streams, db.streams.Keys) == |db.raws|
  }

  lemma CountSnoc(attempts: seq<Attempt>, a: Attempt, s: AttemptStatus)
    ensures CountStatus(attempts + [a], s) == CountStatus(attempts, s) + if a.status == s then 1 else 0
  {
    assert (attempts + [a])[..|attempts|] == attempts;
  }

  lemma StoredBalanced(c: Config, db: Db, d: Delivery, mac: bytes)
    requires Balanced(db) && d.event.sourceId in db.sources && IndexOfEvent(db.raws, d.event.eventId) == |db.raws|
    ensures Balanced(Stored(c, db, d, mac))
  {
    var id := StreamId(d.event);
    var after := Stored(c, db, d, mac);
    CountSnoc(db.attempts, after.attempts[|db.attempts|], Accepted);
    SumLastSplit(after.streams, after.streams.Keys, id);
    SumLastSame(db.streams, after.streams, db.streams.Keys - {id});
    assert after.streams.Keys - {id} == db.streams.Keys - {id};
    if id in db.streams { SumLastSplit(db.streams, db.streams.Keys, id); }
    else { assert db.streams.Keys - {id} == db.streams.Keys; }
  }

  lemma SourceKnown(sources: map<string, Source>, d: Delivery)
    requires Refusal(sources, d).None?
    ensures d.event.sourceId in sources
  {
  }

  /** Ingestion accounting: a delivery writes exactly one attempt (or, on overflow, nothing at all), appends at most
      one raw event, never touches an earlier one, and keeps the books balanced. */
  lemma DeliveryAccounted(c: Config, db: Db, d: Delivery)
    requires Balanced(db)
    ensures var after := Ingest(c, db, d);
            && Balanced(after)
            && db.raws <= after.raws && |after.raws| <= |db.raws| + 1
            && (if Overflows(c, db, d) then after == db
                else |after.attempts| == |db.attempts| + 1 && db.attempts <= after.attempts)
  {
    hide Refusal, MacFor, SumLast, Noted, Sequenced, MarkStale, Affected, CountStatus;
    if Refusal(db.sources, d).Some? {
      CountSnoc(db.attempts, Ingest(c, db, d).attempts[|db.attempts|], Accepted);
    } else {
      var k := IndexOfEvent(db.raws, d.event.eventId);
      if k < |db.raws| {
        CountSnoc(db.attempts, Ingest(c, db, d).attempts[|db.attempts|], Accepted);
      } else if !Overflows(c, db, d) {
        SourceKnown(db.sources, d);
        StoredBalanced(c, db, d, MacFor(c, StreamAt(db.streams, StreamId(d.event)), d).value);
      }
    }
  }

  /** The raw event already stored under the delivered id, if any, has the same content hash. */
  predicate KnownContent(c: Config, raws: seq<RawEvent>, e: Event)
  {
    exists r | r in raws :: r.event.eventId == e.eventId && r.contentHash == c.hash(e)
  }

  predicate KnownId(raws: seq<RawEvent>, eventId: string)
  {
    exists r | r in raws :: r.event.eventId == eventId
  }

  /** The attempt tells the truth, and whatever was not accepted left the raw log, the chains, the invalidations and
      the projection states untouched. */
  lemma AttemptTruthful(c: Config, db: Db, d: Delivery)
    requires Balanced(db) && !Overflows(c, db, d)
    ensures var after := Ingest(c, db, d);
            && |after.attempts| == |db.attempts| + 1
            && match after.attempts[|db.attempts|].status
               case Rejected => Refusal(db.sources, d).Some? && after.sources == db.sources && Untouched(db, after)
               case Duplicate => Refusal(db.sources, d).None? && KnownContent(c, db.raws, d.event) &&
                   Untouched(db, after)
               case Conflict => Refusal(db.sources, d).None? && KnownId(db.raws, d.event.eventId)
                                && !KnownContent(c, db.raws, d.event) && Untouched(db, after)
               case Accepted => Refusal(db.sources, d).None? && !KnownId(db.raws, d.event.eventId)
                                && |after.raws| == |db.raws| + 1 && after.raws[|db.raws|].event == d.event
  {
    hide Refusal, MacFor, SumLast, Noted, Sequenced, MarkStale, Affected, CountStatus;
    var k := IndexOfEvent(db.raws, d.event.eventId);
    if k < |db.raws| {
      assert db.raws[k] in db.raws;
    }
  }

  predicate Untouched(db: Db, after: Db)
  {
    after.(attempts := db.attempts, sources := db.sources) == db
  }

  /** Over every run of deliveries from balanced tables: the books stay balanced and history is only appended to, so
      the first content stored under an id is never changed. */
  lemma {:induction false} RunsBalanced(c: Config, db: Db, ds: seq<Delivery>)
    requires Balanced(db)
    ensures Balanced(IngestAll(c, db, ds))
    ensures db.raws <= IngestAll(c, db, ds).raws && db.attempts <= IngestAll(c, db, ds).attempts
  {
    if ds != [] {
      RunsBalanced(c, db, ds[..|ds| - 1]);
      DeliveryAccounted(c, IngestAll(c, db, ds[..|ds| - 1]), ds[|ds| - 1]);
    }
  }

  /* ---- last_source_sequence ---- */

  /** The delivery is neither refused nor lost to an overflow. */
  predicate Admitted(c: Config, db: Db, d: Delivery)
  {
    Refusal(db.sources, d).None? && !Overflows(c, db, d)
  }

  /** The last delivery of a run is admitted with this sequence number from this source. */
  ghost predicate Adds(c: Config, db: Db, ds: seq<Delivery>, sourceId: string, n: nat)
    requires ds != []
  {
    hide Admitted;
    var d := ds[|ds| - 1];
    Admitted(c, IngestAll(c, db, ds[..|ds| - 1]), d) && d.event.sourceId == sourceId && d.event.sequence == Some(n)
  }

  /** A delivery of a run is admitted with this sequence number from this source. */
  ghost predicate Received(c: Config, db: Db, ds: seq<Delivery>, sourceId: string, n: nat)
  {
    ds != [] && (Received(c, db, ds[..|ds| - 1], sourceId, n) || Adds(c, db, ds, sourceId, n))
  }

  lemma SourcesStep(c: Config, db: Db, d: Delivery)
    ensures Ingest(c, db, d).sources == if Admitted(c, db, d) then Sequenced(db.sources, d.event) else db.sources
  {
  }

  /** last is the maximum of the sequence numbers received from the source, absent when there is none. */
  ghost predicate IsMaximum(last: Option<nat>, c: Config, db: Db, ds: seq<Delivery>, sourceId: string)
  {
    && (forall n: nat | Received(c, db, ds, sourceId, n) :: last.Some? && n <= last.value)
    && (last.Some? ==> Received(c, db, ds, sourceId, last.value))
  }

  lemma MaximumStep(last: Option<nat>, c: Config, db: Db, ds: seq<Delivery>, sourceId: string)
    requires ds != [] && IsMaximum(last, c, db, ds[..|ds| - 1], sourceId)
    ensures var d := ds[|ds| - 1];
            IsMaximum(if Admitted(c, IngestAll(c, db, ds[..|ds| - 1]), d) && d.event.sourceId == sourceId
                      then NextSequence(last, d.event.sequence) else last, c, db, ds, sourceId)
  {
    hide Admitted, IngestAll;
    forall n: nat ensures Received(c, db, ds, sourceId, n) <==>
        Received(c, db, ds[..|ds| - 1], sourceId, n) || Adds(c, db, ds, sourceId, n) { }
  }

  /** After any run, a source's last sequence is the maximum received in an admitted delivery, whether it was accepted,
      a duplicate or a conflict; and nothing else about a source ever changes. */
  lemma {:induction false} LastSequenceIsMaximum(c: Config, db: Db, ds: seq<Delivery>, sourceId: string)
    requires sourceId in db.sources && db.sources[sourceId].lastSequence.None?
    ensures var after := IngestAll(c, db, ds).sources;
            && after.Keys == db.sources.Keys
            && after[sourceId].(lastSequence := None) == db.sources[sourceId]
            && IsMaximum(after[sourceId].lastSequence, c, db, ds, sourceId)
  {
    if ds != [] {
      hide Ingest, Admitted, IsMaximum, Received;
      var init, d := ds[..|ds| - 1], ds[|ds| - 1];
      LastSequenceIsMaximum(c, db, init, sourceId);
      var before := IngestAll(c, db, init);
      SourcesStep(c, before, d);
      MaximumStep(before.sources[sourceId].lastSequence, c, db, ds, sourceId);
    }
  }

  /* ---- the chains ---- */

  /** Each stream is a clean chain that ends in the state kept for it; streams without a state are empty. */
  ghost predicate Chained(c: Config, db: Db)
  {
    forall id :: Describes(c.keys, StreamAt(db.streams, id), LinksOf(db.raws, id))
  }

  /** The stream state describes the chain. */
  ghost predicate Describes(k: Keys, stream: Stream, links: seq<Link>)
  {
    Clean(k, links) && stream.lastSeq == |links| && stream.lastMac == LastMac(links)
  }

  lemma StoredChained(c: Config, db: Db, d: Delivery, mac: bytes, id: string)
    requires d.event.sourceId in db.sources
    requires Describes(c.keys, StreamAt(db.streams, id), LinksOf(db.raws, id))
    requires MacFor(c, StreamAt(db.streams, StreamId(d.event)), d) == Some(mac)
    ensures var after := Stored(c, db, d, mac);
            Describes(c.keys, StreamAt(after.streams, id), LinksOf(after.raws, id))
  {
    var links := LinksOf(db.raws, id);
    var raw := RowFor(c, db.raws, StreamAt(db.streams, StreamId(d.event)), d, mac);
    FilterMapSnoc(db.raws, raw, InStream(id));
    if id == StreamId(d.event) {
      CleanAppend(c.keys, links, raw.link);
    } else {
      assert links + [] == links;
    }
  }

  lemma IngestChained(c: Config, db: Db, d: Delivery)
    requires Chained(c, db)
    ensures Chained(c, Ingest(c, db, d))
  {
    if Refusal(db.sources, d).None? && IndexOfEvent(db.raws, d.event.eventId) == |db.raws| && !Overflows(c, db, d) {
      var mac := MacFor(c, StreamAt(db.streams, StreamId(d.event)), d).value;
      forall id ensures Describes(c.keys, StreamAt(Stored(c, db, d, mac).streams, id),
          LinksOf(Stored(c, db, d, mac).raws, id)) {
        StoredChained(c, db, d, mac, id);
      }
    }
  }

  /** Every store reachable by deliveries verifies clean, and each stream state equals its last row. */
  lemma {:induction false} ReachableVerifiesClean(c: Config, db: Db, ds: seq<Delivery>, id: string)
    requires db.raws == [] && db.streams == map[]
    ensures var after := IngestAll(c, db, ds);
            var rows := StreamRows(after.raws, id);
            && Chained(c, after)
            && StreamFailures(c.keys, id, rows) == []
            && Describes(c.keys, StreamAt(after.streams, id), rows)
  {
    ReachableChained(c, db, ds);
    var links := LinksOf(IngestAll(c, db, ds).raws, id);
    CleanIsOrdered(c.keys, links);
    VerificationExact(c.keys, id, links);
  }

  lemma {:induction false} ReachableChained(c: Config, db: Db, ds: seq<Delivery>)
    requires db.raws == [] && db.streams == map[]
    ensures Chained(c, IngestAll(c, db, ds))
  {
    if ds != [] {
      ReachableChained(c, db, ds[..|ds| - 1]);
      IngestChained(c, IngestAll(c, db, ds[..|ds| - 1]), ds[|ds| - 1]);
    }
  }
}
