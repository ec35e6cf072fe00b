/** Decisions, the outbox, several workers, requests in flight and the receiver, as one state machine. */
module DeliveryProtocol {
  import opened Basics
  import opened DefectBook
  import opened Ingestion
  import opened Outbox
  import opened Erp
  import opened Release
  import opened ReleaseRuns

  /** A request travels, may wait between the receiver's two sections, and is answered. Nobody recalls it. */
  datatype Stage = InFlight | Held | Acked(ack: Ack) | ErrorReply(code: nat)

  datatype Request = Request(payload: ResultPayload, stage: Stage)

  /** The row a worker holds locked and the request it waits for. */
  datatype Claim = Claim(row: nat, request: nat)

  datatype System = System(office: Office, claims: map<nat, Claim>, requests: seq<Request>, erp: Receiver)

  datatype Step =
    | Desk(action: Action)
    | Take(worker: nat, now: int)
    | Enter(request: nat)
    | Store(request: nat)
    | Conclude(worker: nat, outcome: SendOutcome, now: int)
    | Retry(messageId: nat, now: int)
    | Behave(mode: Mode)

  function Locked(claims: map<nat, Claim>): set<nat>
  {
    set w | w in claims :: claims[w].row
  }

  function WithOutbox(s: System, outbox: seq<Message>): System
  {
    s.(office := s.office.(outbox := outbox))
  }

  /** A worker locks the oldest due message and sends its payload. A worker that dies before sending is one whose
      request is never received. */
  function Taken(s: System, worker: nat, now: int): System
  {
    var k := NextFrom(s.office.outbox, Locked(s.claims), now, 0);
    if worker in s.claims || k == |s.office.outbox| then s
    else s.(claims := s.claims[worker := Claim(k, |s.requests|)],
            requests := s.requests + [Request(s.office.outbox[k].payload, InFlight)])
  }

  /** The receiver's first section. */
  function EnteredAt(s: System, r: nat): System
  {
    if r >= |s.requests| || !s.requests[r].stage.InFlight? then s
    else
      var stage := match GateOf(s.erp) case Reject(code) => ErrorReply(code) case Proceed(_) => Held;
      s.(erp := Entered(s.erp), requests := s.requests[r := s.requests[r].(stage := stage)])
  }

  /** The receiver's second section, whether or not the sender still waits. */
  function StoredAt(s: System, r: nat): System
  {
    if r >= |s.requests| || !s.requests[r].stage.Held? then s
    else
      var p := s.requests[r].payload;
      s.(erp := Recorded(s.erp, p), requests := s.requests[r := s.requests[r].(stage := Acked(AckFor(s.erp, p)))])
  }

  /** Errors, losses and damaged answers may come at any time; a correlated acknowledgement only as the receiver's
      answer to this very request. */
  predicate Plausible(m: Message, r: Request, o: SendOutcome)
  {
    Correlated(m, o) ==> r.stage.Acked? && o.messageId == Some(r.stage.ack.messageId)
  }

  function ConcludedBy(s: System, worker: nat, o: SendOutcome, now: int, max: nat): System
  {
    if worker !in s.claims then s
    else
      var k := s.claims[worker];
      if k.row >= |s.office.outbox| || k.request >= |s.requests| then s
      else if !Plausible(s.office.outbox[k.row], s.requests[k.request], o) then s
      else
        var freed := s.(claims := s.claims - {worker});
        match Concluded(s.office.outbox[k.row], o, now, max)
        case None => freed
        case Some(m) => WithOutbox(freed, s.office.outbox[k.row := m])
  }

  /** The row a manual retry would change now: an existing, undelivered one that no worker holds. */
  predicate Retryable(s: System, messageId: nat)
  {
    RetryError(s.office.outbox, messageId).None? && IndexOfMessage(s.office.outbox, messageId) !in Locked(s.claims)
  }

  ghost function Next(c: Config, max: nat, s: System, step: Step): System
  {
    match step
    case Desk(a) => s.(office := Act(c, s.office, a))
    case Take(w, now) => Taken(s, w, now)
    case Enter(r) => EnteredAt(s, r)
    case Store(r) => StoredAt(s, r)
    case Conclude(w, o, now) => ConcludedBy(s, w, o, now, max)
    case Retry(id, now) => if Retryable(s, id) then WithOutbox(s, Retried(s.office.outbox, id, now)) else s
    case Behave(m) => s.(erp := s.erp.(mode := m, timeoutConsumed := false))
  }

  ghost function Run(c: Config, max: nat, s: System, steps: seq<Step>): System
  {
    hide Next;
    if steps == [] then s else Next(c, max, Run(c, max, s, steps[..|steps| - 1]), steps[|steps| - 1])
  }

  /** Nothing decided, nothing sent, nothing received; the other tables may hold anything. */
  ghost predicate Initial(s: System)
  {
    && s.office.db.book == Book([], []) && s.office.decisions == [] && s.office.results == [] && s.office.outbox == []
    && s.claims == map[] && s.requests == [] && s.erp == STARTED
  }

  /* ---- the invariant, by parts ---- */

  predicate Queued(outbox: seq<Message>, p: ResultPayload)
  {
    exists m | m in outbox :: m.payload == p
  }

  /** Every worker holds its own open row and waits for a request with that row's payload. */
  ghost predicate ClaimsValid(claims: map<nat, Claim>, requests: seq<Request>, outbox: seq<Message>)
  {
    && (forall w | w in claims ::
          var k := claims[w];
          k.row < |outbox| && k.request < |requests| && Open(outbox[k.row])
          && requests[k.request].payload == outbox[k.row].payload)
    && (forall v, w | v in claims && w in claims && v != w :: claims[v].row != claims[w].row)
  }

  /** Only queued payloads travel, and what is acknowledged is held. */
  ghost predicate RequestsValid(requests: seq<Request>, outbox: seq<Message>, erp: Receiver)
  {
    forall r | r in requests ::
      && Queued(outbox, r.payload)
      && (r.stage.Acked? ==> r.stage.ack.messageId == r.payload.messageId && Holds(erp, r.payload.messageId))
  }

  ghost predicate ReceiverValid(erp: Receiver, outbox: seq<Message>)
  {
    OncePerMessage(erp) && forall d | d in erp.deliveries :: Queued(outbox, d.payload)
  }

  ghost predicate RowsValid(outbox: seq<Message>, erp: Receiver)
  {
    forall m | m in outbox ::
      && m.messageId == m.payload.messageId
      && (m.state.Delivered? ==> Holds(erp, m.messageId))
  }

  ghost predicate Safe(s: System)
  {
    && Filed(s.office)
    && ClaimsValid(s.claims, s.requests, s.office.outbox)
    && RequestsValid(s.requests, s.office.outbox, s.erp)
    && ReceiverValid(s.erp, s.office.outbox)
    && RowsValid(s.office.outbox, s.erp)
  }

  /** Rows keep their identity, payload and place; a delivered row does not change at all. */
  ghost predicate Keeps(a: seq<Message>, b: seq<Message>)
  {
    && |a| <= |b|
    && forall k | 0 <= k < |a| ::
         b[k].messageId == a[k].messageId && b[k].payload == a[k].payload && (a[k].state.Delivered? ==> b[k] == a[k])
  }

  lemma QueuedKept(a: seq<Message>, b: seq<Message>, p: ResultPayload)
    requires Keeps(a, b) && Queued(a, p)
    ensures Queued(b, p)
  {
    var m :| m in a && m.payload == p;
    var k :| 0 <= k < |a| && a[k] == m;
    assert b[k] in b;
  }

  lemma TrafficKept(requests: seq<Request>, a: seq<Message>, b: seq<Message>, erp: Receiver)
    requires Keeps(a, b) && RequestsValid(requests, a, erp) && ReceiverValid(erp, a)
    ensures RequestsValid(requests, b, erp) && ReceiverValid(erp, b)
  {
    hide Queued, Keeps;
    forall r | r in requests ensures Queued(b, r.payload) { QueuedKept(a, b, r.payload); }
    forall d | d in erp.deliveries ensures Queued(b, d.payload) { QueuedKept(a, b, d.payload); }
  }

  /** A changed row keeps everything filed. */
  lemma RowFiled(o: Office, k: nat, m: Message)
    requires Filed(o) && k < |o.outbox| && m.messageId == o.outbox[k].messageId && m.payload == o.outbox[k].payload
    ensures Filed(o.(outbox := o.outbox[k := m]))
  {
    hide Sound, DecisionsLinked, LastDisposition, Exported, Exports;
  }

  /* ---- steps ---- */

  /** Old rows stay as they are; new ones are pending and untried. */
  ghost predicate OnlyQueues(a: seq<Message>, b: seq<Message>)
  {
    && a <= b
    && forall k | |a| <= k < |b| ::
         b[k].state.Pending? && b[k].attempts == 0 && b[k].messageId == b[k].payload.messageId
  }

  /** Only the desk writes new messages, and it never touches old ones. */
  lemma ActQueues(c: Config, o: Office, a: Action)
    ensures OnlyQueues(o.outbox, Act(c, o, a).outbox)
  {
    hide C.Perform, C.Possible, EvidenceFailed, EffectivePass, ResultOf, Latest, ReworkFinish, WithStatus,
         AuthorizeError, ClosedBook, WithNcr;
    match a
    case Background(s) => BackgroundQueuesNothing(c, o, a);
    case _ =>
  }

  lemma BackgroundQueuesNothing(c: Config, o: Office, a: Action)
    requires a.Background?
    ensures Act(c, o, a).outbox == o.outbox
  {
    hide C.Perform, C.Possible;
  }

  lemma DeskSafe(c: Config, s: System, a: Action)
    requires Safe(s)
    ensures Safe(s.(office := Act(c, s.office, a)))
    ensures Keeps(s.office.outbox, Act(c, s.office, a).outbox)
  {
    hide Act, Filed, Queued, Holds;
    ActFiled(c, s.office, a);
    ActQueues(c, s.office, a);
    TrafficKept(s.requests, s.office.outbox, Act(c, s.office, a).outbox, s.erp);
  }

  lemma ClaimAdded(
    claims: map<nat, Claim>, requests: seq<Request>, outbox: seq<Message>, worker: nat, k: nat, r: Request)
    requires ClaimsValid(claims, requests, outbox)
    requires k < |outbox| && Open(outbox[k]) && k !in Locked(claims) && r.payload == outbox[k].payload
    ensures ClaimsValid(claims[worker := Claim(k, |requests|)], requests + [r], outbox)
  {
    forall w | w in claims ensures claims[w].row != k { assert claims[w].row in Locked(claims); }
  }

  lemma RequestAdded(requests: seq<Request>, outbox: seq<Message>, erp: Receiver, m: Message)
    requires RequestsValid(requests, outbox, erp) && m in outbox
    ensures RequestsValid(requests + [Request(m.payload, InFlight)], outbox, erp)
  {
    hide Holds;
  }

  lemma TakeSafe(s: System, worker: nat, now: int)
    requires Safe(s)
    ensures Safe(Taken(s, worker, now))
  {
    hide Filed, ClaimsValid, RequestsValid, ReceiverValid, RowsValid;
    var k := NextFrom(s.office.outbox, Locked(s.claims), now, 0);
    if k < |s.office.outbox| {
      var m := s.office.outbox[k];
      RequestAdded(s.requests, s.office.outbox, s.erp, m);
      ClaimAdded(s.claims, s.requests, s.office.outbox, worker, k, Request(m.payload, InFlight));
    }
  }

  lemma EnterSafe(s: System, r: nat)
    requires Safe(s)
    ensures Safe(EnteredAt(s, r))
  {
    hide Filed, Queued;
    var after := EnteredAt(s, r);
    forall x | x in after.requests ensures Queued(after.office.outbox, x.payload) {
      var i :| 0 <= i < |after.requests| && after.requests[i] == x;
      assert s.requests[i] in s.requests;
    }
  }

  lemma StoreSafe(s: System, r: nat)
    requires Safe(s)
    ensures Safe(StoredAt(s, r)) && s.erp.deliveries <= StoredAt(s, r).erp.deliveries
  {
    hide Filed, Queued, OncePerMessage, Recorded, AckFor, Holds;
    if r < |s.requests| && s.requests[r].stage.Held? {
      var p := s.requests[r].payload;
      var after := StoredAt(s, r);
      RecordIdempotent(s.erp, p, p);
      assert s.requests[r] in s.requests;
      RecordedFrom(s.erp, p);
      forall x | x in after.requests
        ensures Queued(s.office.outbox, x.payload)
        ensures x.stage.Acked? ==> x.stage.ack.messageId == x.payload.messageId && Holds(after.erp, x.payload.messageId)
      {
        var i :| 0 <= i < |after.requests| && after.requests[i] == x;
        assert s.requests[i] in s.requests;
        if i != r && x.stage.Acked? { HoldsMonotone(s.erp, after.erp, x.payload.messageId); }
      }
      forall m | m in s.office.outbox && m.state.Delivered? ensures Holds(after.erp, m.messageId) {
        HoldsMonotone(s.erp, after.erp, m.messageId);
      }
    }
  }

  lemma RecordedFrom(e: Receiver, p: ResultPayload)
    ensures forall d | d in Recorded(e, p).deliveries :: d in e.deliveries || d.payload == p
  {
  }

  lemma RowChangeSafe(s: System, k: nat, m: Message)
    requires Safe(s) && k < |s.office.outbox| && !s.office.outbox[k].state.Delivered?
    requires m.messageId == s.office.outbox[k].messageId && m.payload == s.office.outbox[k].payload
    requires m.state.Delivered? ==> Holds(s.erp, m.messageId)
    requires k !in Locked(s.claims)
    ensures Safe(WithOutbox(s, s.office.outbox[k := m])) && Keeps(s.office.outbox, s.office.outbox[k := m])
  {
    hide Filed, Queued, Holds, OncePerMessage;
    var outbox := s.office.outbox[k := m];
    assert s.office.outbox[k] in s.office.outbox;
    RowFiled(s.office, k, m);
    TrafficKept(s.requests, s.office.outbox, outbox, s.erp);
    forall w | w in s.claims ensures s.claims[w].row != k { assert s.claims[w].row in Locked(s.claims); }
  }

  lemma ConcludeSafe(s: System, worker: nat, o: SendOutcome, now: int, max: nat)
    requires Safe(s)
    ensures var after := ConcludedBy(s, worker, o, now, max);
            Safe(after) && Keeps(s.office.outbox, after.office.outbox)
  {
    hide Filed, Queued, Holds, OncePerMessage;
    if worker in s.claims {
      var k := s.claims[worker];
      var row, request := s.office.outbox[k.row], s.requests[k.request];
      var freed := s.(claims := s.claims - {worker});
      assert row in s.office.outbox && request in s.requests;
      assert k.row !in Locked(freed.claims);
      if Plausible(row, request, o) && Concluded(row, o, now, max).Some? {
        RowChangeSafe(freed, k.row, Concluded(row, o, now, max).value);
      }
    }
  }

  lemma RetrySafe(s: System, messageId: nat, now: int)
    requires Safe(s) && Retryable(s, messageId)
    ensures var outbox := Retried(s.office.outbox, messageId, now);
            Safe(WithOutbox(s, outbox)) && Keeps(s.office.outbox, outbox)
  {
    hide Safe, Locked;
    var i := IndexOfMessage(s.office.outbox, messageId);
    RowChangeSafe(s, i, ReadyAgain(s.office.outbox[i], now));
  }

  /** Every step keeps the system safe, keeps delivered rows and all payloads, and only adds deliveries. */
  lemma StepSafe(c: Config, max: nat, s: System, step: Step)
    requires Safe(s)
    ensures var after := Next(c, max, s, step);
            Safe(after) && Keeps(s.office.outbox, after.office.outbox) && s.erp.deliveries <= after.erp.deliveries
  {
    hide Act, Filed, Queued, Locked, Recorded, AckFor, Concluded, Retried;
    match step
    case Desk(a) => DeskSafe(c, s, a);
    case Take(w, now) => TakeSafe(s, w, now);
    case Enter(r) => EnterSafe(s, r);
    case Store(r) => StoreSafe(s, r);
    case Conclude(w, o, now) => ConcludeSafe(s, w, o, now, max);
    case Retry(id, now) => if Retryable(s, id) { RetrySafe(s, id, now); }
    case Behave(m) =>
  }

  lemma KeepsTransitive(a: seq<Message>, b: seq<Message>, c: seq<Message>)
    requires Keeps(a, b) && Keeps(b, c)
    ensures Keeps(a, c)
  {
  }

  /** From any safe state, whatever follows: DELIVERED is final, payloads never change, deliveries are never lost. */
  lemma {:induction false} RunSafe(c: Config, max: nat, s: System, steps: seq<Step>)
    requires Safe(s)
    ensures var after := Run(c, max, s, steps);
            Safe(after) && Keeps(s.office.outbox, after.office.outbox) && s.erp.deliveries <= after.erp.deliveries
  {
    hide Next, Safe;
    if steps != [] {
      var before := Run(c, max, s, steps[..|steps| - 1]);
      RunSafe(c, max, s, steps[..|steps| - 1]);
      StepSafe(c, max, before, steps[|steps| - 1]);
      KeepsTransitive(s.office.outbox, before.office.outbox, Next(c, max, before, steps[|steps| - 1]).office.outbox);
    }
  }

  lemma InitialSafe(s: System)
    requires Initial(s)
    ensures Safe(s)
  {
    assert Traced(s.office) && ClosedIffExported(s.office);
  }

  /** The delivery is of this message, with its payload. */
  predicate DeliversRow(d: Receipt, m: Message)
  {
    d.messageId == m.messageId && d.payload == m.payload
  }

  /** The delivery is of an outbox row, with the payload of that row's result, which exports a committed decision with
      an exportable disposition. */
  ghost predicate Justified(d: Receipt, o: Office)
  {
    exists k | 0 <= k < |o.outbox| && k < |o.results| ::
      DeliversRow(d, o.outbox[k]) && o.results[k].payload == d.payload &&
        Exports(o.results[k], o.decisions, o.db.book.ncrs)
  }

  lemma DeliveryTraced(s: System, d: Receipt)
    requires Safe(s) && d in s.erp.deliveries
    ensures Justified(d, s.office)
  {
    hide Sound, DecisionsLinked, ClosedIffExported, ClaimsValid, RequestsValid, Exports;
    var m :| m in s.office.outbox && m.payload == d.payload;
    var k :| 0 <= k < |s.office.outbox| && s.office.outbox[k] == m;
    assert DeliversRow(d, s.office.outbox[k]) && s.office.results[k].payload == d.payload;
  }

  lemma RowsDistinct(o: Office, i: nat, k: nat)
    requires Filed(o) && i < k < |o.outbox|
    ensures o.outbox[i].messageId != o.outbox[k].messageId
  {
    hide Sound, DecisionsLinked, ClosedIffExported;
    assert Exports(o.results[i], o.decisions, o.db.book.ncrs) && Exports(o.results[k], o.decisions, o.db.book.ncrs);
  }

  /** The receiver holds the very payload of a delivered row. */
  lemma DeliveredHeld(s: System, k: nat)
    requires Safe(s) && k < |s.office.outbox| && s.office.outbox[k].state.Delivered?
    ensures exists d | d in s.erp.deliveries :: DeliversRow(d, s.office.outbox[k])
  {
    hide Filed, ClaimsValid, RequestsValid, Exports;
    var m := s.office.outbox[k];
    assert m in s.office.outbox;
    var i := IndexOfDelivery(s.erp.deliveries, m.messageId);
    var d := s.erp.deliveries[i];
    DeliveryTraced(s, d);
    var j :| 0 <= j < |s.office.outbox| && DeliversRow(d, s.office.outbox[j]);
    assert DeliversRow(d, s.office.outbox[j]);
    if j < k { RowsDistinct(s.office, j, k); }
    if k < j { RowsDistinct(s.office, k, j); }
    assert j == k;
    assert d in s.erp.deliveries && DeliversRow(d, m);
  }

  /** At most one delivery per message id; every delivery is of an outbox row, with its payload, and exports a committed
      decision with an exportable disposition; a DELIVERED row is held by the receiver with its payload; no two workers
      hold the same row. */
  ghost predicate EffectOnce(s: System)
  {
    && (forall i, j | 0 <= i < j < |s.erp.deliveries| :: s.erp.deliveries[i].messageId != s.erp.deliveries[j].messageId)
    && (forall d | d in s.erp.deliveries :: Justified(d, s.office))
    && (forall k | 0 <= k < |s.office.outbox| && s.office.outbox[k].state.Delivered? ::
          exists d | d in s.erp.deliveries :: DeliversRow(d, s.office.outbox[k]))
    && (forall v, w | v in s.claims && w in s.claims && v != w :: s.claims[v].row != s.claims[w].row)
  }

  lemma SafeMeansOnce(s: System)
    requires Safe(s)
    ensures EffectOnce(s)
  {
    hide Filed, Justified, DeliversRow, RequestsValid, RowsValid, Queued;
    forall d | d in s.erp.deliveries ensures Justified(d, s.office) {
      DeliveryTraced(s, d);
    }
    forall k | 0 <= k < |s.office.outbox| && s.office.outbox[k].state.Delivered?
      ensures exists d | d in s.erp.deliveries :: DeliversRow(d, s.office.outbox[k])
    {
      DeliveredHeld(s, k);
    }
  }

  /** Exactly-once effect, for every interleaving of decisions, workers, late requests, lost or damaged answers,
      rollbacks after a send and manual retries. */
  lemma ExactlyOnce(c: Config, max: nat, start: System, steps: seq<Step>)
    requires Initial(start)
    ensures Filed(Run(c, max, start, steps).office) && EffectOnce(Run(c, max, start, steps))
  {
    hide Run, Filed, EffectOnce;
    InitialSafe(start);
    RunSafe(c, max, start, steps);
    SafeMeansOnce(Run(c, max, start, steps));
  }

  /* ---- attempts ---- */

  /** The step is a manual retry that makes row k pending again. */
  predicate RetriesRow(s: System, step: Step, k: nat)
  {
    step.Retry? && Retryable(s, step.messageId) && IndexOfMessage(s.office.outbox, step.messageId) == k
  }

  /** How often a run's manual retries made row k pending again. */
  ghost function Retries(c: Config, max: nat, start: System, steps: seq<Step>, k: nat): nat
  {
    hide Next, Run, RetriesRow;
    if steps == [] then 0
    else
      var before, step := Run(c, max, start, steps[..|steps| - 1]), steps[|steps| - 1];
      Retries(c, max, start, steps[..|steps| - 1], k) + if RetriesRow(before, step, k) then 1 else 0
  }

  /** Row k, if it exists: attempts are left while it is RETRYING, and it was attempted at most max times plus once for
      each manual retry, with an attempt to spare while it is PENDING. */
  predicate WithinBound(outbox: seq<Message>, k: nat, max: nat, retries: int)
  {
    k < |outbox| ==>
      && outbox[k].attempts <= max + retries
      && (outbox[k].state.Retrying? ==> outbox[k].attempts < max)
      && (outbox[k].state.Pending? ==> outbox[k].attempts < max + retries)
  }

  lemma StepWithinBound(c: Config, max: nat, s: System, step: Step, k: nat, retries: int)
    requires max >= 1 && retries >= 0 && Safe(s) && WithinBound(s.office.outbox, k, max, retries)
    ensures WithinBound(Next(c, max, s, step).office.outbox, k, max, retries + if RetriesRow(s, step, k) then 1 else 0)
  {
    hide Act, Filed, Queued, RequestsValid, ReceiverValid, RowsValid, Recorded, AckFor, Locked;
    if step.Desk? { ActQueues(c, s.office, step.action); }
  }

  /** Retry bound, over every interleaving. */
  lemma {:induction false} AttemptsBounded(c: Config, max: nat, start: System, steps: seq<Step>, k: nat)
    requires max >= 1 && Initial(start)
    ensures WithinBound(Run(c, max, start, steps).office.outbox, k, max, Retries(c, max, start, steps, k))
  {
    hide Next, Safe, WithinBound, RetriesRow;
    if steps == [] {
      assert start.office.outbox == [];
      NoRowYet(k, max, Retries(c, max, start, steps, k));
    } else {
      var init, step := steps[..|steps| - 1], steps[|steps| - 1];
      InitialSafe(start);
      RunSafe(c, max, start, init);
      AttemptsBounded(c, max, start, init, k);
      StepWithinBound(c, max, Run(c, max, start, init), step, k, Retries(c, max, start, init, k));
    }
  }

  lemma NoRowYet(k: nat, max: nat, retries: int)
    ensures WithinBound([], k, max, retries)
  {
  }
}
