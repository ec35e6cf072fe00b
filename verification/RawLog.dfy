/** The raw_events table and the two orders it is read in. */
module RawLog {
  import opened Basics
  import opened Sorting
  import opened Framing
  import opened Events
  import opened IntegrityChain

  /** A raw_events row: the decrypted event, its reception, and its place in its source's chain. */
  datatype RawEvent = RawEvent(event: Event, receivedAt: int, ingestSeq: nat, contentHash: bytes, link: Link)

  /* ---- business order: occurred_at, source_id, source_sequence NULLS LAST, received_at, event_id ---- */

  predicate SequenceLe(a: Option<nat>, b: Option<nat>)
  {
    b.None? || (a.Some? && a.value <= b.value)
  }

  predicate SameTriple(a: Event, b: Event)
  {
    a.occurredAt == b.occurredAt && a.sourceId == b.sourceId && a.sequence == b.sequence
  }

  predicate TripleLe(a: Event, b: Event)
  {
    a.occurredAt < b.occurredAt ||
    (a.occurredAt == b.occurredAt &&
     if a.sourceId == b.sourceId then SequenceLe(a.sequence, b.sequence) else StrLe(a.sourceId, b.sourceId))
  }

  predicate BusinessLe(a: RawEvent, b: RawEvent)
  {
    if !SameTriple(a.event, b.event) then TripleLe(a.event, b.event)
    else a.receivedAt < b.receivedAt || (a.receivedAt == b.receivedAt && StrLe(a.event.eventId, b.event.eventId))
  }

  function TripleOrder(): (Event, Event) -> bool
  {
    (a: Event, b: Event) => TripleLe(a, b)
  }

  function BusinessOrder(): (RawEvent, RawEvent) -> bool
  {
    (a: RawEvent, b: RawEvent) => BusinessLe(a, b)
  }

  lemma TripleLeTotal(a: Event, b: Event)
    ensures TripleLe(a, b) || TripleLe(b, a)
  {
    StrLeTotal(a.sourceId, b.sourceId);
  }

  lemma TripleLeAntisymmetric(a: Event, b: Event)
    requires TripleLe(a, b) && TripleLe(b, a)
    ensures SameTriple(a, b)
  {
    if a.sourceId != b.sourceId { StrLeAntisymmetric(a.sourceId, b.sourceId); }
  }

  lemma TripleLeTransitive(a: Event, b: Event, c: Event)
    requires TripleLe(a, b) && TripleLe(b, c)
    ensures TripleLe(a, c)
  {
    if a.occurredAt == b.occurredAt == c.occurredAt && a.sourceId != b.sourceId && b.sourceId != c.sourceId {
      StrLeTransitive(a.sourceId, b.sourceId, c.sourceId);
      if a.sourceId == c.sourceId { StrLeAntisymmetric(a.sourceId, b.sourceId); }
    }
  }

  lemma BusinessLeTransitive(a: RawEvent, b: RawEvent, c: RawEvent)
    requires BusinessLe(a, b) && BusinessLe(b, c)
    ensures BusinessLe(a, c)
  {
    if SameTriple(a.event, b.event) && SameTriple(b.event, c.event) {
      if a.receivedAt == b.receivedAt == c.receivedAt {
        StrLeTransitive(a.event.eventId, b.event.eventId, c.event.eventId);
      }
    } else if SameTriple(a.event, b.event) || SameTriple(b.event, c.event) {
    } else {
      TripleLeTransitive(a.event, b.event, c.event);
      if SameTriple(a.event, c.event) { TripleLeAntisymmetric(a.event, b.event); }
    }
  }

  /** The business order is total on events with distinct ids: a deterministic tie-break. */
  lemma BusinessOrderTotal()
    ensures TotalPreorder(BusinessOrder())
    ensures forall a, b :: BusinessLe(a, b) && BusinessLe(b, a) ==> a.event.eventId == b.event.eventId
  {
    forall a, b ensures BusinessOrder()(a, b) || BusinessOrder()(b, a) {
      TripleLeTotal(a.event, b.event);
      StrLeTotal(a.event.eventId, b.event.eventId);
    }
    forall a, b, c | BusinessOrder()(a, b) && BusinessOrder()(b, c) ensures BusinessOrder()(a, c) {
      BusinessLeTransitive(a, b, c);
    }
    forall a, b | BusinessLe(a, b) && BusinessLe(b, a) ensures a.event.eventId == b.event.eventId {
      if SameTriple(a.event, b.event) {
        StrLeAntisymmetric(a.event.eventId, b.event.eventId);
      } else {
        TripleLeAntisymmetric(a.event, b.event);
      }
    }
  }

  /* ---- queries ---- */

  function OfItem(itemId: string): RawEvent -> Option<RawEvent>
  {
    (r: RawEvent) => if r.event.itemId == Some(itemId) then Some(r) else None
  }

  function ItemRows(raws: seq<RawEvent>, itemId: string): seq<RawEvent>
  {
    FilterMap(raws, OfItem(itemId))
  }

  function Contents(rows: seq<RawEvent>): (es: seq<Event>)
    ensures |es| == |rows|
  {
    seq(|rows|, i requires 0 <= i < |rows| => rows[i].event)
  }

  /** One item's events in business order: what rebuild_item replays. */
  function EventsOf(raws: seq<RawEvent>, itemId: string): seq<Event>
  {
    Contents(InsertionSort(ItemRows(raws, itemId), BusinessOrder()))
  }

  function InStream(streamId: string): RawEvent -> Option<Link>
  {
    (r: RawEvent) => if r.link.metadata.streamId == streamId then Some(r.link) else None
  }

  function LinksOf(raws: seq<RawEvent>, streamId: string): seq<Link>
  {
    FilterMap(raws, InStream(streamId))
  }

  function ChainOrder(): (Link, Link) -> bool
  {
    (a: Link, b: Link) => a.metadata.seqNo <= b.metadata.seqNo
  }

  /** One stream's rows ordered by integrity_seq: what verify_integrity walks. */
  function StreamRows(raws: seq<RawEvent>, streamId: string): seq<Link>
  {
    InsertionSort(LinksOf(raws, streamId), ChainOrder())
  }

  lemma CleanIsOrdered(k: Keys, links: seq<Link>)
    requires Clean(k, links)
    ensures InsertionSort(links, ChainOrder()) == links
  {
    CleanMeans(k, links);
    assert forall i | 0 <= i < |links| :: Stands(k, links, i) ==> links[i].metadata.seqNo == i + 1;
    SortFixpoint(links, ChainOrder());
  }

  function MaxSeq(rows: seq<RawEvent>): nat
  {
    if rows == [] then 0
    else
      var rest, last := MaxSeq(rows[..|rows| - 1]), rows[|rows| - 1].ingestSeq;
      if last > rest then last else rest
  }

  function IndexOfEvent(raws: seq<RawEvent>, eventId: string): (i: nat)
    ensures i <= |raws|
    ensures i < |raws| ==> raws[i].event.eventId == eventId
    ensures forall j | 0 <= j < i :: raws[j].event.eventId != eventId
  {
    if raws == [] || raws[0].event.eventId == eventId then 0 else 1 + IndexOfEvent(raws[1..], eventId)
  }
}
