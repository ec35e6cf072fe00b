/** backend/app/security/integrity.py: verify_integrity over the stored chains. */
module Verification {
  import opened Basics
  import opened Framing
  import opened IntegrityChain
  import opened RawLog
  import opened Store
  import opened Ingestion

  /** Every stored length fits its prefix: recomputing a MAC does not raise OverflowError. */
  ghost predicate Framable(k: Keys, links: seq<Link>)
  {
    forall l | l in links :: Framed(k, l).Some?
  }

  /** The three checks on one row, against what the walk remembers of the rows before it. */
  method CheckRow(k: Keys, streamId: string, l: Link, expected: nat, previous: bytes, ghost before: seq<Link>)
    returns (found: seq<Failure>, overflow: bool)
    requires expected == |before| + 1 && previous == LastMac(before)
    ensures overflow <==> Framed(k, l).None?
    ensures !overflow ==> found == LinkFailures(k, streamId, before, l)
  {
    found := [];
    if l.metadata.seqNo != expected {
      found := found + [Failure(streamId, l.metadata.eventId, l.metadata.seqNo, SequenceGap)];
    }
    if l.prevMac != previous {
      found := found + [Failure(streamId, l.metadata.eventId, l.metadata.seqNo, PreviousMacMismatch)];
    }
    var calculated := ComputeMac(k, l.prevMac, l.metadata, l.ciphertext, l.nonce, l.keyId);
    overflow := calculated.None?;
    if !overflow && calculated.value != l.mac {
      found := found + [Failure(streamId, l.metadata.eventId, l.metadata.seqNo, MacMismatch)];
    }
  }

  /** The inner loop: one stream's rows in sequence order, up to a row whose framing overflows. */
  method WalkStream(k: Keys, streamId: string, rows: seq<Link>) returns (failures: seq<Failure>, overflow: bool)
    ensures overflow <==> !Framable(k, rows)
    ensures !overflow ==> failures == StreamFailures(k, streamId, rows)
  {
    hide Framed, LinkFailures;
    failures := [];
    var previous := [];
    var expected := 1;
    for i := 0 to |rows|
      invariant forall j | 0 <= j < i :: Framed(k, rows[j]).Some?
      invariant failures == StreamFailures(k, streamId, rows[..i])
      invariant previous == LastMac(rows[..i]) && expected == i + 1
    {
      assert rows[..i + 1][..i] == rows[..i];
      var found;
      found, overflow := CheckRow(k, streamId, rows[i], expected, previous, rows[..i]);
      if overflow {
        assert rows[i] in rows;
        return;
      }
      failures := failures + found;
      previous := rows[i].mac;
      expected := expected + 1;
    }
    assert rows[..|rows|] == rows;
    overflow := false;
  }

  function AllFailures(k: Keys, raws: seq<RawEvent>, ids: seq<string>): seq<Failure>
  {
    if ids == [] then []
    else
      var id := ids[|ids| - 1];
      AllFailures(k, raws, ids[..|ids| - 1]) + StreamFailures(k, id, StreamRows(raws, id))
  }

  /** Alerts are raised for failing events that had none when verification began. */
  function NewAlerts(existing: seq<string>, failures: seq<Failure>): seq<string>
  {
    FilterMap(failures, AlertFor(existing))
  }

  function AlertFor(existing: seq<string>): Failure -> Option<string>
  {
    (f: Failure) => if f.eventId in existing then None else Some(f.eventId)
  }

  lemma OneAlertMore(existing: seq<string>, fs: seq<Failure>, f: Failure)
    ensures FilterMap(fs + [f], AlertFor(existing)) ==
            FilterMap(fs, AlertFor(existing)) + if f.eventId in existing then [] else [f.eventId]
  {
    FilterMapSnoc(fs, f, AlertFor(existing));
  }

  method RaiseAlerts(db: Database, failures: seq<Failure>)
    modifies db`alerts
    ensures db.alerts == old(db.alerts) + NewAlerts(old(db.alerts), failures)
  {
    var existing := db.alerts;
    assert FilterMap([], AlertFor(existing)) == [];
    hide FilterMap, AlertFor;
    for n := 0 to |failures|
      invariant db.alerts == existing + FilterMap(failures[..n], AlertFor(existing))
    {
      OneAlertMore(existing, failures[..n], failures[n]);
      assert failures[..n + 1] == failures[..n] + [failures[n]];
      if failures[n].eventId !in existing {
        db.alerts := db.alerts + [failures[n].eventId];
      }
    }
    assert failures[..|failures|] == failures;
  }

  function Judged(k: Keys, raws: seq<RawEvent>, id: string, stream: Stream): Stream
  {
    stream.(status := if StreamFailures(k, id, StreamRows(raws, id)) == [] then StreamOk else IntegrityFailed)
  }

  /** The body of the outer loop. */
  method VerifyStream(k: Keys, db: Database, id: string) returns (found: seq<Failure>, overflow: bool)
    requires id in db.streams
    modifies db`streams
    ensures overflow <==> !Framable(k, StreamRows(db.raws, id))
    ensures !overflow ==> found == StreamFailures(k, id, StreamRows(db.raws, id))
    ensures !overflow ==> db.streams == old(db.streams)[id := Judged(k, db.raws, id, old(db.streams)[id])]
  {
    hide Framable;
    found, overflow := WalkStream(k, id, StreamRows(db.raws, id));
    if !overflow {
      db.streams := db.streams[id := db.streams[id].(status := if found == [] then StreamOk else IntegrityFailed)];
    }
  }

  function JudgedAll(k: Keys, raws: seq<RawEvent>, streams: map<string, Stream>, ids: seq<string>): map<string, Stream>
  {
    map id | id in streams :: if id in ids then Judged(k, raws, id, streams[id]) else streams[id]
  }

  lemma JudgedSnoc(k: Keys, raws: seq<RawEvent>, streams: map<string, Stream>, ids: seq<string>, id: string)
    requires id in streams
    ensures var before := JudgedAll(k, raws, streams, ids);
            id in before && JudgedAll(k, raws, streams, ids + [id]) == before[id := Judged(k, raws, id, before[id])]
  {
    hide StreamRows, StreamFailures;
  }

  lemma FailuresSnoc(k: Keys, raws: seq<RawEvent>, ids: seq<string>, id: string)
    ensures AllFailures(k, raws, ids + [id]) == AllFailures(k, raws, ids) + StreamFailures(k, id, StreamRows(raws, id))
  {
    hide StreamRows, StreamFailures;
    assert (ids + [id])[..|ids|] == ids;
  }

  /** Some row of the streams overflows its framing. */
  ghost predicate Overflowing(k: Keys, raws: seq<RawEvent>, ids: seq<string>)
  {
    exists id | id in ids :: !Framable(k, StreamRows(raws, id))
  }

  /** The outer loop. */
  method VerifyStreams(k: Keys, db: Database, ids: seq<string>) returns (failures: seq<Failure>, overflow: bool)
    requires forall id | id in ids :: id in db.streams
    modifies db`streams
    ensures overflow <==> Overflowing(k, db.raws, ids)
    ensures !overflow ==> failures == AllFailures(k, db.raws, ids)
    ensures !overflow ==> db.streams == JudgedAll(k, db.raws, old(db.streams), ids)
  {
    hide StreamRows, StreamFailures, Framable, Judged, AllFailures;
    failures := [];
    NoFailures(k, db.raws);
    for n := 0 to |ids|
      invariant forall j | 0 <= j < n :: Framable(k, StreamRows(db.raws, ids[j]))
      invariant failures == AllFailures(k, db.raws, ids[..n])
      invariant db.streams == JudgedAll(k, db.raws, old(db.streams), ids[..n])
    {
      assert ids[..n + 1] == ids[..n] + [ids[n]];
      JudgedSnoc(k, db.raws, old(db.streams), ids[..n], ids[n]);
      FailuresSnoc(k, db.raws, ids[..n], ids[n]);
      var found;
      found, overflow := VerifyStream(k, db, ids[n]);
      if overflow {
        return;
      }
      failures := failures + found;
    }
    assert ids[..|ids|] == ids;
    overflow := false;
  }

  lemma NoFailures(k: Keys, raws: seq<RawEvent>)
    ensures AllFailures(k, raws, []) == []
  {
  }

  /** verify_integrity; ids is the ordered list of stream ids its first query returns. A row that overflows its framing
      raises, and nothing is committed. */
  method VerifyIntegrity(
    k: Keys, db: Database, ids: seq<string>) returns (failures: seq<Failure>, error: Option<string>)
    requires forall id :: id in ids <==> id in db.streams
    modifies db`streams, db`alerts
    ensures error == if Overflowing(k, db.raws, ids) then Some("OverflowError") else None
    ensures error.Some? ==> db.Snapshot() == old(db.Snapshot())
    ensures error.None? ==> failures == AllFailures(k, db.raws, ids)
    ensures error.None? ==> db.streams == map id | id in old(db.streams) :: Judged(k, db.raws, id, old(db.streams)[id])
    ensures error.None? ==> db.alerts == old(db.alerts) + NewAlerts(old(db.alerts), failures)
  {
    hide StreamRows, AllFailures, Overflowing, Judged, NewAlerts;
    var before := db.streams;
    var overflow;
    failures, overflow := VerifyStreams(k, db, ids);
    if overflow {
      db.streams := before;
      return [], Some("OverflowError");
    }
    RaiseAlerts(db, failures);
    error := None;
  }

  /** Rows that recompute fit their framing: on clean chains verification does not raise. */
  lemma CleanFramable(k: Keys, links: seq<Link>)
    requires Clean(k, links)
    ensures Framable(k, links)
  {
    CleanMeans(k, links);
    forall l | l in links ensures Framed(k, l).Some? {
      var i :| 0 <= i < |links| && links[i] == l;
      assert Stands(k, links, i);
    }
  }

  /** On tables reached by any run of deliveries, verification neither raises nor reports anything, whatever streams it
      is asked about. */
  lemma {:induction false} ReachableReportsNothing(c: Config, db: Db, ds: seq<Delivery>, ids: seq<string>)
    requires db.raws == [] && db.streams == map[]
    ensures AllFailures(c.keys, IngestAll(c, db, ds).raws, ids) == []
    ensures !Overflowing(c.keys, IngestAll(c, db, ds).raws, ids)
  {
    forall id | id in ids ensures Framable(c.keys, StreamRows(IngestAll(c, db, ds).raws, id)) {
      ReachableVerifiesClean(c, db, ds, id);
      CleanFramable(c.keys, StreamRows(IngestAll(c, db, ds).raws, id));
    }
    if ids != [] {
      ReachableReportsNothing(c, db, ds, ids[..|ids| - 1]);
      ReachableVerifiesClean(c, db, ds, ids[|ids| - 1]);
    }
  }
}
