/** The outbox_messages table, the attempt state machine of worker/main.py and retry_outbox of
    backend/app/api/integrations.py. Times are integer microseconds. */
module Outbox {
  import opened Basics
  import opened DefectBook

  /** The exported quality result; the message id "QR-<decision id>" is written as the decision's id. */
  datatype ResultPayload = ResultPayload(
    messageId: nat, itemId: string, ncr: nat, decision: nat,
    verdict: Verdict, disposition: Disposition, containment: Containment, decidedAt: int)

  datatype MessageState = Pending | Retrying | Delivered | DeliveryFailed

  datatype SendError = HttpError(status: nat) | TransportError(kind: string) | CorrelationError

  datatype Message = Message(
    messageId: nat, payload: ResultPayload, state: MessageState, attempts: nat,
    nextAttempt: int, lastError: Option<SendError>, deliveredAt: Option<int>)

  /** How one send ends: a JSON answer, an HTTP error status, a timeout or network error, a body that is not JSON, or
      any other exception, among them the death of the worker. */
  datatype SendOutcome =
    | Answered(messageId: Option<nat>, status: string)
    | Refused(code: nat)
    | Unreachable(kind: string)
    | Garbled
    | Unexpected

  predicate Open(m: Message)
  {
    m.state.Pending? || m.state.Retrying?
  }

  predicate Eligible(m: Message, now: int)
  {
    Open(m) && m.nextAttempt <= now
  }

  function Pow2(n: nat): nat
  {
    if n == 0 then 1 else 2 * Pow2(n - 1)
  }

  /** min(2 ** attempts, 300) seconds */
  function Backoff(attempts: nat): nat
  {
    if Pow2(attempts) < 300 then Pow2(attempts) else 300
  }

  predicate RetryableStatus(code: nat)
  {
    code == 408 || code == 429 || code >= 500
  }

  predicate Correlated(m: Message, o: SendOutcome)
  {
    o.Answered? && o.messageId == Some(m.messageId) && o.status == "ACK"
  }

  /** The row committed after one attempt, or None when the transaction is rolled back. */
  function Concluded(m: Message, o: SendOutcome, now: int, max: nat): Option<Message>
  {
    var n := m.(attempts := m.attempts + 1);
    var later := now + Backoff(n.attempts) * 1_000_000;
    match o
    case Answered(_, _) =>
      if Correlated(m, o) then Some(n.(state := Delivered, deliveredAt := Some(now), lastError := None))
      else Some(n.(state := DeliveryFailed, lastError := Some(CorrelationError)))
    case Refused(code) =>
      if RetryableStatus(code) && n.attempts < max
      then Some(n.(state := Retrying, lastError := Some(HttpError(code)), nextAttempt := later))
      else Some(n.(state := DeliveryFailed, lastError := Some(HttpError(code))))
    case Unreachable(kind) =>
      Some(n.(state := if n.attempts < max then Retrying else DeliveryFailed,
              lastError := Some(TransportError(kind)), nextAttempt := later))
    case Garbled => Some(n.(state := DeliveryFailed, lastError := Some(CorrelationError)))
    case Unexpected => None
  }

  /** The oldest unlocked message that is due at or after position i, or |rows|. */
  function NextFrom(rows: seq<Message>, locked: set<nat>, now: int, i: nat): (k: nat)
    requires i <= |rows|
    ensures i <= k <= |rows|
    ensures k < |rows| ==> k !in locked && Eligible(rows[k], now)
    ensures forall j | i <= j < k :: j in locked || !Eligible(rows[j], now)
    decreases |rows| - i
  {
    if i == |rows| || (i !in locked && Eligible(rows[i], now)) then i else NextFrom(rows, locked, now, i + 1)
  }

  /** The position of a message id, or |rows|. */
  function IndexOfMessage(rows: seq<Message>, messageId: nat): (i: nat)
    ensures i <= |rows|
    ensures i < |rows| ==> rows[i].messageId == messageId
    ensures forall j | 0 <= j < i :: rows[j].messageId != messageId
  {
    if rows == [] || rows[0].messageId == messageId then 0 else 1 + IndexOfMessage(rows[1..], messageId)
  }

  function ReadyAgain(m: Message, now: int): Message
  {
    m.(state := Pending, nextAttempt := now, lastError := None)
  }

  function RetryError(rows: seq<Message>, messageId: nat): Option<string>
  {
    var i := IndexOfMessage(rows, messageId);
    if i == |rows| then Some("NOT_FOUND")
    else if rows[i].state.Delivered? then Some("OUTBOX_ALREADY_DELIVERED")
    else None
  }

  function Retried(rows: seq<Message>, messageId: nat, now: int): seq<Message>
  {
    var i := IndexOfMessage(rows, messageId);
    if RetryError(rows, messageId).Some? then rows else rows[i := ReadyAgain(rows[i], now)]
  }

  /** The table with the row locks that running workers hold. */
  class MessageTable {
    var rows: seq<Message>
    var locked: set<nat>

    constructor (rows: seq<Message>)
      ensures this.rows == rows && locked == {}
    {
      this.rows, locked := rows, {};
    }

    /** The select of process_one: the first due row that no other worker holds is locked. */
    method Claim(now: int) returns (k: Option<nat>)
      modifies this`locked
      ensures var i := NextFrom(rows, old(locked), now, 0);
              if i < |rows| then k == Some(i) && locked == old(locked) + {i} else k == None && locked == old(locked)
    {
      var i := 0;
      while i < |rows|
        invariant i <= |rows|
        invariant NextFrom(rows, locked, now, 0) == NextFrom(rows, locked, now, i)
      {
        if i !in locked && (rows[i].state.Pending? || rows[i].state.Retrying?) && rows[i].nextAttempt <= now {
          locked := locked + {i};
          return Some(i);
        }
        i := i + 1;
      }
      k := None;
    }

    /** The rest of process_one: its row changes, then commit or rollback, either of which frees the lock. */
    method Conclude(k: nat, o: SendOutcome, now: int, max: nat)
      requires k < |rows|
      modifies this
      ensures locked == old(locked) - {k}
      ensures rows == match Concluded(old(rows[k]), o, now, max)
                      case None => old(rows)
                      case Some(m) => old(rows)[k := m]
    {
      var before := rows;
      var m := rows[k].(attempts := rows[k].attempts + 1);
      match o {
        case Answered(id, status) =>
          if id != Some(m.messageId) || status != "ACK" {
            m := m.(state := DeliveryFailed, lastError := Some(CorrelationError));
          } else {
            m := m.(state := Delivered, deliveredAt := Some(now), lastError := None);
          }
        case Refused(code) =>
          var retryable := code == 408 || code == 429 || code >= 500;
          m := m.(state := if retryable && m.attempts < max then Retrying else DeliveryFailed);
          m := m.(lastError := Some(HttpError(code)));
          if m.state.Retrying? {
            m := m.(nextAttempt := now + Backoff(m.attempts) * 1_000_000);
          }
        case Unreachable(kind) =>
          m := m.(state := if m.attempts < max then Retrying else DeliveryFailed);
          m := m.(lastError := Some(TransportError(kind)));
          m := m.(nextAttempt := now + Backoff(m.attempts) * 1_000_000);
        case Garbled =>
          m := m.(state := DeliveryFailed, lastError := Some(CorrelationError));
        case Unexpected =>
      }
      rows := rows[k := m];
      if o.Unexpected? {
        rows := before;
      }
      locked := locked - {k};
    }

    /** retry_outbox */
    method Retry(messageId: nat, now: int) returns (error: Option<string>)
      modifies this`rows
      ensures error == RetryError(old(rows), messageId)
      ensures rows == Retried(old(rows), messageId, now)
    {
      var i := IndexOfMessage(rows, messageId);
      if i == |rows| {
        return Some("NOT_FOUND");
      }
      if rows[i].state.Delivered? {
        return Some("OUTBOX_ALREADY_DELIVERED");
      }
      rows := rows[i := rows[i].(state := Pending)];
      rows := rows[i := rows[i].(nextAttempt := now, lastError := None)];
      error := None;
    }
  }

  /* ---- retry bound and termination ---- */

  lemma {:induction false} Pow2Monotone(a: nat, b: nat)
    requires a <= b
    ensures Pow2(a) <= Pow2(b)
  {
    if a < b { Pow2Monotone(a, b - 1); }
  }

  /** Waiting times never shrink and stay within 2..300 seconds; from the ninth attempt on they are 300. */
  lemma BackoffBounded(a: nat, b: nat)
    requires 1 <= a <= b
    ensures 2 <= Backoff(a) <= Backoff(b) <= 300
    ensures a >= 9 ==> Backoff(a) == 300
  {
    Pow2Monotone(1, a);
    Pow2Monotone(a, b);
    if a >= 9 { Pow2Monotone(9, a); assert Pow2(9) == 2 * 2 * Pow2(7) == 512; }
  }

  /** An outcome after which a message may be tried again. */
  predicate Transient(o: SendOutcome)
  {
    o.Unreachable? || (o.Refused? && RetryableStatus(o.code))
  }

  datatype Try = Try(outcome: SendOutcome, at: int)

  /** Attempts on one message without manual retry; a settled message is not attempted, a rollback leaves no trace. */
  function Tried(m: Message, tries: seq<Try>, max: nat): Message
  {
    if tries == [] then m
    else
      var before, t := Tried(m, tries[..|tries| - 1], max), tries[|tries| - 1];
      if !Open(before) then before
      else match Concluded(before, t.outcome, t.at, max) case None => before case Some(after) => after
  }

  /** The tries that are committed if they are made. */
  function Committed(tries: seq<Try>): nat
  {
    if tries == [] then 0
    else Committed(tries[..|tries| - 1]) + if tries[|tries| - 1].outcome.Unexpected? then 0 else 1
  }

  predicate AllTransient(tries: seq<Try>)
  {
    forall t | t in tries :: t.outcome.Unexpected? || Transient(t.outcome)
  }

  /** A message is still waiting after some tries exactly when every committed one failed transiently and the attempts
      are not used up; its counter has then counted each of them. */
  lemma {:induction false} StillWaitingIff(m: Message, tries: seq<Try>, max: nat)
    requires Open(m)
    ensures Open(Tried(m, tries, max)) <==>
            AllTransient(tries) && (Committed(tries) == 0 || m.attempts + Committed(tries) < max)
    ensures Open(Tried(m, tries, max)) ==> Tried(m, tries, max).attempts == m.attempts + Committed(tries)
  {
    if tries != [] {
      var init, t := tries[..|tries| - 1], tries[|tries| - 1];
      assert tries == init + [t];
      StillWaitingIff(m, init, max);
      assert AllTransient(tries) <==> AllTransient(init) && (t.outcome.Unexpected? || Transient(t.outcome));
    }
  }

  lemma {:induction false} AttemptsGrow(m: Message, tries: seq<Try>, max: nat)
    requires m.attempts <= max
    ensures m.attempts <= Tried(m, tries, max).attempts <= m.attempts + Committed(tries)
    ensures Open(m) && m.attempts < max ==> Tried(m, tries, max).attempts <= max
  {
    if tries != [] {
      var init, t := tries[..|tries| - 1], tries[|tries| - 1];
      AttemptsGrow(m, init, max);
      if Open(m) {
        StillWaitingIff(m, init, max);
      }
    }
  }

  /** Termination: without manual retry a new message is delivered or given up within max committed attempts, whatever
      their outcomes and however many rollbacks lie between them. */
  lemma SettlesWithinMax(m: Message, tries: seq<Try>, max: nat)
    requires m.state.Pending? && m.attempts == 0 && max >= 1
    requires Committed(tries) >= max
    ensures var after := Tried(m, tries, max);
            (after.state.Delivered? || after.state.DeliveryFailed?) && 1 <= after.attempts <= max
  {
    StillWaitingIff(m, tries, max);
    AttemptsGrow(m, tries, max);
    FirstAttemptCounts(m, tries, max);
  }

  lemma {:induction false} FirstAttemptCounts(m: Message, tries: seq<Try>, max: nat)
    requires Open(m) && Committed(tries) > 0
    ensures Tried(m, tries, max).attempts > m.attempts
  {
    var init := tries[..|tries| - 1];
    StillWaitingIff(m, init, max);
    if Committed(init) > 0 {
      FirstAttemptCounts(m, init, max);
    } else {
      NothingCommitted(m, init, max);
    }
  }

  lemma {:induction false} NothingCommitted(m: Message, tries: seq<Try>, max: nat)
    requires Committed(tries) == 0
    ensures Tried(m, tries, max) == m
  {
    if tries != [] {
      NothingCommitted(m, tries[..|tries| - 1], max);
    }
  }
}
