/** erp_emulator/app/main.py: the receiver of quality results. A request is handled in two locked sections with a delay
    between them, so requests interleave there. The dictionary of deliveries is kept in insertion order. */
module Erp {
  import opened Outbox

  datatype Mode = Normal | TimeoutOnce | Error503 | Reject400 | Offline

  /** external stands for the number in "ERP-QR-00001". */
  datatype Ack = Ack(messageId: nat, external: nat)

  datatype Receipt = Receipt(messageId: nat, payload: ResultPayload, ack: Ack)

  datatype Receiver = Receiver(mode: Mode, timeoutConsumed: bool, deliveries: seq<Receipt>)

  const STARTED := Receiver(Normal, false, [])

  /** What the first section decides: an error status, or to go on, at once or after a sleep. */
  datatype Gate = Reject(code: nat) | Proceed(delayed: bool)

  predicate Delays(e: Receiver)
  {
    e.mode.TimeoutOnce? && !e.timeoutConsumed
  }

  function GateOf(e: Receiver): Gate
  {
    match e.mode
    case Offline => Reject(503)
    case Error503 => Reject(503)
    case Reject400 => Reject(400)
    case _ => Proceed(Delays(e))
  }

  function Entered(e: Receiver): Receiver
  {
    e.(timeoutConsumed := e.timeoutConsumed || Delays(e))
  }

  /** The position of a message id among the deliveries, or their number. */
  function IndexOfDelivery(ds: seq<Receipt>, messageId: nat): (i: nat)
    ensures i <= |ds|
    ensures i < |ds| ==> ds[i].messageId == messageId
    ensures forall j | 0 <= j < i :: ds[j].messageId != messageId
  {
    if ds == [] || ds[0].messageId == messageId then 0 else 1 + IndexOfDelivery(ds[1..], messageId)
  }

  function Recorded(e: Receiver, p: ResultPayload): Receiver
  {
    if IndexOfDelivery(e.deliveries, p.messageId) < |e.deliveries| then e
    else e.(deliveries := e.deliveries + [Receipt(p.messageId, p, Ack(p.messageId, |e.deliveries| + 1))])
  }

  function AckFor(e: Receiver, p: ResultPayload): Ack
  {
    var i := IndexOfDelivery(e.deliveries, p.messageId);
    if i < |e.deliveries| then e.deliveries[i].ack else Ack(p.messageId, |e.deliveries| + 1)
  }

  /** The module-level state object. */
  class ErpState {
    var mode: Mode
    var timeoutConsumed: bool
    var deliveries: seq<Receipt>

    function Value(): Receiver
      reads this
    {
      Receiver(mode, timeoutConsumed, deliveries)
    }

    constructor ()
      ensures Value() == STARTED
    {
      mode, timeoutConsumed, deliveries := Normal, false, [];
    }

    /** quality_results up to the end of its sleep. */
    method Enter() returns (gate: Gate)
      modifies this`timeoutConsumed
      ensures gate == GateOf(old(Value())) && Value() == Entered(old(Value()))
    {
      var shouldTimeout := mode == TimeoutOnce && !timeoutConsumed;
      if shouldTimeout {
        timeoutConsumed := true;
      }
      if mode == Offline || mode == Error503 {
        return Reject(503);
      }
      if mode == Reject400 {
        return Reject(400);
      }
      gate := Proceed(shouldTimeout);
    }

    /** The second locked section of quality_results. */
    method Record(p: ResultPayload) returns (ack: Ack)
      modifies this`deliveries
      ensures ack == AckFor(old(Value()), p) && Value() == Recorded(old(Value()), p)
    {
      var i := IndexOfDelivery(deliveries, p.messageId);
      if i < |deliveries| {
        return deliveries[i].ack;
      }
      ack := Ack(p.messageId, |deliveries| + 1);
      deliveries := deliveries + [Receipt(p.messageId, p, ack)];
    }

    /** PUT /api/v1/demo/behavior */
    method Behave(m: Mode)
      modifies this
      ensures Value() == old(Value()).(mode := m, timeoutConsumed := false)
    {
      mode := m;
      timeoutConsumed := false;
    }
  }

  /** One delivery per message id, under its own id, acknowledged by it, numbered by arrival. */
  ghost predicate OncePerMessage(e: Receiver)
  {
    && (forall i, j | 0 <= i < j < |e.deliveries| :: e.deliveries[i].messageId != e.deliveries[j].messageId)
    && (forall i | 0 <= i < |e.deliveries| ::
          var d := e.deliveries[i];
          d.messageId == d.payload.messageId && d.ack == Ack(d.messageId, i + 1))
  }

  predicate Holds(e: Receiver, messageId: nat)
  {
    IndexOfDelivery(e.deliveries, messageId) < |e.deliveries|
  }

  /** Recording is idempotent: a repeated request changes nothing and gets the first acknowledgement. */
  lemma RecordIdempotent(e: Receiver, p: ResultPayload, q: ResultPayload)
    requires OncePerMessage(e) && q.messageId == p.messageId
    ensures var once := Recorded(e, p);
            && OncePerMessage(once) && Holds(once, p.messageId) && e.deliveries <= once.deliveries
            && Recorded(once, q) == once
            && AckFor(once, q) == AckFor(e, p) && AckFor(e, p).messageId == p.messageId
  {
    var once := Recorded(e, p);
    var i := IndexOfDelivery(once.deliveries, p.messageId);
    var k := IndexOfDelivery(e.deliveries, p.messageId);
    assert once.deliveries[k].messageId == p.messageId;
    assert i == k;
  }

  lemma HoldsMonotone(a: Receiver, b: Receiver, messageId: nat)
    requires a.deliveries <= b.deliveries && Holds(a, messageId)
    ensures Holds(b, messageId)
  {
    var i := IndexOfDelivery(a.deliveries, messageId);
    assert b.deliveries[i].messageId == messageId;
  }
}
