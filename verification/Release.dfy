/** backend/app/quality/release.py and the decision endpoints of backend/app/api/nonconformances.py: what a controller
    may decide, and what leaves the system. Decision ids are positions in their table. */
module Release {
  import opened Basics
  import opened BirthWindow
  import opened DefectBook
  import opened Store
  import opened Outbox

  datatype Decision = Decision(
    ncr: nat, verdict: Verdict, disposition: Disposition, containment: Containment,
    analysisVersion: nat, previous: Option<nat>)

  datatype QualityResult = QualityResult(messageId: nat, decision: nat, itemId: string, payload: ResultPayload)

  /** The tables of ingestion and projection with those of release; statuses holds items.status where it was set. */
  datatype Office = Office(
    db: Db, decisions: seq<Decision>, results: seq<QualityResult>, outbox: seq<Message>,
    statuses: map<string, Disposition>)

  /** A request ends in its commit or in an error, which rolls everything back. */
  datatype Reply = Done(office: Office) | Error(code: string)

  /* ---- guards ---- */

  predicate Exportable(d: Disposition)
  {
    d.Released? || d.UseAsIs? || d.Scrapped?
  }

  /** The nonconformance waits for a successful rework verification. */
  predicate Gated(n: Ncr)
  {
    n.rework && n.verification != Some(VerificationPassed)
  }

  /** authorize */
  function AuthorizeError(n: Ncr, j: nat, d: Decision): Option<string>
  {
    if d.ncr != j || !(d.verdict.Confirmed? || d.verdict.Rejected?) then Some("ACTION_NOT_AUTHORIZED")
    else if !Exportable(d.disposition) then Some("ACTION_NOT_AUTHORIZED")
    else if Gated(n) then Some("REWORK_VERIFICATION_REQUIRED")
    else None
  }

  /** Some raw event of the item belongs to a stream that failed verification. */
  predicate EvidenceFailed(db: Db, itemId: string)
  {
    exists r | r in db.raws ::
      && r.event.itemId == Some(itemId)
      && r.link.metadata.streamId in db.streams && db.streams[r.link.metadata.streamId].status.IntegrityFailed?
  }

  function GuardError(o: Office, j: nat): Option<string>
  {
    if j >= |o.db.book.ncrs| then Some("NOT_FOUND")
    else if EvidenceFailed(o.db, o.db.book.ncrs[j].itemId) then Some("EVIDENCE_INTEGRITY_FAILED")
    else None
  }

  /** The request schema of a decision. */
  predicate ValidDecision(v: Verdict, d: Disposition, c: Containment)
  {
    (v.Confirmed? || v.Rejected?) && !(v.Rejected? && d.ReworkRequired?)
  }

  /** The latest decision on a nonconformance. */
  function Latest(ds: seq<Decision>, j: nat): (k: Option<nat>)
    ensures k.Some? ==> k.value < |ds| && ds[k.value].ncr == j && forall i | k.value < i < |ds| :: ds[i].ncr != j
    ensures k.None? ==> forall i | 0 <= i < |ds| :: ds[i].ncr != j
  {
    if ds == [] then None
    else if ds[|ds| - 1].ncr == j then Some(|ds| - 1)
    else Latest(ds[..|ds| - 1], j)
  }

  /* ---- create_result ---- */

  function ResultOf(results: seq<QualityResult>, d: nat): (i: nat)
    ensures i <= |results|
    ensures i < |results| ==> results[i].decision == d
    ensures forall k | 0 <= k < i :: results[k].decision != d
  {
    if results == [] || results[0].decision == d then 0 else 1 + ResultOf(results[1..], d)
  }

  function PayloadFor(n: Ncr, d: nat, decision: Decision, now: int): ResultPayload
  {
    ResultPayload(d, n.itemId, decision.ncr, d, decision.verdict, decision.disposition, decision.containment, now)
  }

  function Queue(p: ResultPayload, now: int): Message
  {
    Message(p.messageId, p, Pending, 0, now, None, None)
  }

  function ClosedBook(b: Book, j: nat, now: int): Book
    requires j < |b.ncrs|
  {
    var occurrence := b.ncrs[j].occurrence;
    Book(if occurrence < |b.occurrences|
         then b.occurrences[occurrence := b.occurrences[occurrence].(open := false, closedAt := Some(now))]
           else b.occurrences,
         b.ncrs[j := b.ncrs[j].(closedAt := Some(now))])
  }

  function WithStatus(o: Office, itemId: string, d: Disposition): map<string, Disposition>
  {
    if itemId in o.db.routes.items then o.statuses[itemId := d] else o.statuses
  }

  function Created(o: Office, j: nat, d: nat, now: int): Reply
    requires j < |o.db.book.ncrs| && d < |o.decisions|
  {
    var n, decision := o.db.book.ncrs[j], o.decisions[d];
    match AuthorizeError(n, j, decision)
    case Some(code) => Error(code)
    case None =>
      if ResultOf(o.results, d) < |o.results| then Done(o)
      else
        var p := PayloadFor(n, d, decision, now);
        Done(o.(db := o.db.(book := ClosedBook(o.db.book, j, now)),
                results := o.results + [QualityResult(d, d, n.itemId, p)],
                outbox := o.outbox + [Queue(p, now)],
                statuses := WithStatus(o, n.itemId, decision.disposition)))
  }

  /* ---- the endpoints ---- */

  function WithNcr(db: Db, j: nat, n: Ncr): Db
    requires j < |db.book.ncrs|
  {
    db.(book := Book(db.book.occurrences, db.book.ncrs[j := n]))
  }

  function DecidedNcr(n: Ncr, v: Verdict, d: Disposition, c: Containment): Ncr
  {
    var m := n.(verdict := v, disposition := d, containment := c);
    if d.ReworkRequired? then m.(rework := true, verification := Some(AwaitingRework)) else m
  }

  /** decide_nonconformance before it creates a result. */
  function DecisionWritten(o: Office, j: nat, v: Verdict, d: Disposition, c: Containment): Office
    requires j < |o.db.book.ncrs|
  {
    var n := o.db.book.ncrs[j];
    o.(db := WithNcr(o.db, j, DecidedNcr(n, v, d, c)),
       decisions := o.decisions + [Decision(j, v, d, c, n.currentVersion, Latest(o.decisions, j))],
       statuses := WithStatus(o, n.itemId, d))
  }

  function Decided(o: Office, j: nat, v: Verdict, d: Disposition, c: Containment, now: int): Reply
  {
    if !ValidDecision(v, d, c) then Error("VALIDATION_ERROR")
    else match GuardError(o, j)
      case Some(code) => Error(code)
      case None =>
        var written := DecisionWritten(o, j, v, d, c);
        if Exportable(d) then Created(written, j, |o.decisions|, now) else Done(written)
  }

  predicate IsRework(r: Run, j: nat)
  {
    r.start.Some? && r.start.value.runReason == "rework" && r.start.value.reworkFor == Some(j) &&
      r.completion == Some("completed")
  }

  /** The finish of the completed rework run that sorts first, latest finish first; a run without one precedes all. */
  function ReworkFinish(runs: seq<Run>, j: nat): (f: Option<int>)
    ensures f.Some? ==> (exists r | r in runs :: IsRework(r, j) && r.finishedAt == f)
                        && forall r | r in runs && IsRework(r, j) :: r.finishedAt.Some? && r.finishedAt.value <= f.value
    ensures f.None? ==>
              (forall r | r in runs :: !IsRework(r, j)) || exists r | r in runs :: IsRework(r, j) && r.finishedAt.None?
  {
    if runs == [] then None
    else
      var rest, r := ReworkFinish(runs[1..], j), runs[0];
      assert runs == [r] + runs[1..];
      if !IsRework(r, j) then rest
      else if r.finishedAt.None? || (exists q | q in runs[1..] :: IsRework(q, j) && q.finishedAt.None?) then None
      else if rest.None? || rest.value < r.finishedAt.value then r.finishedAt
      else rest
  }

  /** A trusted inspection without defect at or after the given time. */
  predicate RepeatInspection(os: seq<Observation>, from: int)
  {
    exists o | o in os :: o.at >= from && o.inspection.result.NoDefect? && o.trust.Trusted?
  }

  predicate EffectivePass(o: Office, j: nat, passed: bool)
    requires j < |o.db.book.ncrs|
  {
    var views := ViewsAt(o.db, o.db.book.ncrs[j].itemId);
    passed && ReworkFinish(views.runs, j).Some? &&
      RepeatInspection(views.observations, ReworkFinish(views.runs, j).value)
  }

  function VerifiedNcr(n: Ncr, pass: bool): Ncr
  {
    if pass then
      n.(verification := Some(VerificationPassed), rework := true, disposition := Released, containment := Uncontained)
    else n.(verification := Some(VerificationFailed), disposition := ReworkRequired, containment := Hold)
  }

  function VerificationWritten(o: Office, j: nat, pass: bool): Office
    requires j < |o.db.book.ncrs|
  {
    var n := o.db.book.ncrs[j];
    o.(db := WithNcr(o.db, j, VerifiedNcr(n, pass)),
       decisions := o.decisions + [Decision(j, Confirmed, if pass then Released else ReworkRequired,
                                            if pass then Uncontained else Hold, n.currentVersion,
                                                Latest(o.decisions, j))])
  }

  function Verified(o: Office, j: nat, passed: bool, now: int): Reply
  {
    match GuardError(o, j)
    case Some(code) => Error(code)
    case None =>
      if ReworkFinish(ViewsAt(o.db, o.db.book.ncrs[j].itemId).runs, j).None? then Error("REWORK_NOT_COMPLETED")
      else
        var pass := EffectivePass(o, j, passed);
        var written := VerificationWritten(o, j, pass);
        if pass then Created(written, j, |o.decisions|, now) else Done(written)
  }

  function InspectionRequested(o: Office, j: nat): Reply
  {
    if j >= |o.db.book.ncrs| then Error("NOT_FOUND")
    else
      var n := o.db.book.ncrs[j];
      Done(o.(db := WithNcr(o.db, j, n.(verdict := NeedsExtraCheck, containment := ReinspectionRequired)),
              decisions := o.decisions + [Decision(j, NeedsExtraCheck, n.disposition, ReinspectionRequired,
                                                   n.currentVersion, Latest(o.decisions, j))]))
  }

  function Reviewed(o: Office, j: nat, v: Verdict): Reply
  {
    if !(v.PendingReview? || v.NeedsExtraCheck?) then Error("VALIDATION_ERROR")
    else match GuardError(o, j)
      case Some(code) => Error(code)
      case None => Done(o.(db := WithNcr(o.db, j, o.db.book.ncrs[j].(verdict := v))))
  }

  /** review_containment, approving; proposals only carry containments other than NONE. */
  function ContainmentApproved(o: Office, j: nat, c: Containment): Reply
  {
    if j >= |o.db.book.ncrs| then Error("NOT_FOUND")
    else Done(o.(db := WithNcr(o.db, j, o.db.book.ncrs[j].(containment := c))))
  }

  /* ---- the endpoints as they change the tables ---- */

  class ReleaseDesk {
    const db: Database
    var decisions: seq<Decision>
    var results: seq<QualityResult>
    var outbox: seq<Message>
    var statuses: map<string, Disposition>

    function State(): Office
      reads this, db, db.routeStore, db.register
    {
      Office(db.Snapshot(), decisions, results, outbox, statuses)
    }

    constructor (db: Database)
      ensures this.db == db && State() == Office(db.Snapshot(), [], [], [], map[])
    {
      this.db := db;
      decisions, results, outbox, statuses := [], [], [], map[];
    }

    method SetStatus(itemId: string, d: Disposition)
      modifies this`statuses
      ensures statuses == WithStatus(old(State()), itemId, d)
    {
      if itemId in db.routeStore.items {
        statuses := statuses[itemId := d];
      }
    }

    /** create_result; on an error the caller rolls back. */
    method CreateResult(j: nat, d: nat, now: int) returns (error: Option<string>)
      requires j < |db.register.ncrs| && d < |decisions|
      modifies this, db.register
      ensures match Created(old(State()), j, d, now)
              case Error(code) => error == Some(code)
              case Done(office) => error == None && State() == office
      ensures error.Some? ==> State() == old(State())
      ensures db.register.ncrs == if error.Some? then old(db.register.ncrs) else State().db.book.ncrs
    {
      var n, decision := db.register.ncrs[j], decisions[d];
      error := AuthorizeError(n, j, decision);
      if error.Some? || ResultOf(results, d) < |results| {
        return;
      }
      var p := PayloadFor(n, d, decision, now);
      results := results + [QualityResult(d, d, n.itemId, p)];
      outbox := outbox + [Queue(p, now)];
      SetStatus(n.itemId, decision.disposition);
      db.register.ncrs := db.register.ncrs[j := n.(closedAt := Some(now))];
      if n.occurrence < |db.register.occurrences| {
        var occurrence := db.register.occurrences[n.occurrence];
        db.register.occurrences :=
          db.register.occurrences[n.occurrence := occurrence.(open := false, closedAt := Some(now))];
      }
    }

    /** decide_nonconformance up to the point where it creates a result. */
    method WriteDecision(j: nat, v: Verdict, d: Disposition, c: Containment)
      requires j < |db.register.ncrs|
      modifies this, db.register
      ensures State() == DecisionWritten(old(State()), j, v, d, c)
    {
      hide Latest;
      var n := db.register.ncrs[j];
      decisions := decisions + [Decision(j, v, d, c, n.currentVersion, Latest(decisions, j))];
      SetStatus(n.itemId, d);
      n := n.(verdict := v, disposition := d, containment := c);
      if d.ReworkRequired? {
        n := n.(rework := true, verification := Some(AwaitingRework));
      }
      db.register.ncrs := db.register.ncrs[j := n];
    }

    /** decide_nonconformance */
    method Decide(j: nat, v: Verdict, d: Disposition, c: Containment, now: int) returns (error: Option<string>)
      modifies this, db.register
      ensures match Decided(old(State()), j, v, d, c, now)
              case Error(code) => error == Some(code) && State() == old(State())
              case Done(office) => error == None && State() == office
    {
      hide EvidenceFailed, Latest, Created, DecidedNcr, WithStatus;
      if !ValidDecision(v, d, c) {
        return Some("VALIDATION_ERROR");
      }
      error := GuardError(State(), j);
      if error.Some? {
        return;
      }
      var decisionsBefore, statusesBefore, ncrsBefore := decisions, statuses, db.register.ncrs;
      WriteDecision(j, v, d, c);
      if Exportable(d) {
        error := CreateResult(j, |decisions| - 1, now);
        if error.Some? {
          decisions, statuses, db.register.ncrs := decisionsBefore, statusesBefore, ncrsBefore;
        }
      }
    }

    /** verify_rework up to the point where it creates a result. */
    method WriteVerification(j: nat, pass: bool)
      requires j < |db.register.ncrs|
      modifies this`decisions, db.register
      ensures State() == VerificationWritten(old(State()), j, pass)
    {
      hide Latest;
      var n := db.register.ncrs[j];
      decisions := decisions + [Decision(j, Confirmed, if pass then Released else ReworkRequired,
                                         if pass then Uncontained else Hold, n.currentVersion, Latest(decisions, j))];
      n := n.(verification := Some(if pass then VerificationPassed else VerificationFailed));
      if pass {
        n := n.(rework := true);
        n := n.(disposition := Released, containment := Uncontained);
      } else {
        n := n.(disposition := ReworkRequired, containment := Hold);
      }
      db.register.ncrs := db.register.ncrs[j := n];
    }

    /** verify_rework */
    method VerifyRework(j: nat, passed: bool, now: int) returns (error: Option<string>)
      modifies this, db.register
      ensures match Verified(old(State()), j, passed, now)
              case Error(code) => error == Some(code) && State() == old(State())
              case Done(office) => error == None && State() == office
    {
      hide EvidenceFailed, Latest, Created, VerifiedNcr, ReworkFinish, RepeatInspection;
      error := GuardError(State(), j);
      if error.Some? {
        return;
      }
      var views := ViewsAt(db.Snapshot(), db.register.ncrs[j].itemId);
      var finish := ReworkFinish(views.runs, j);
      if finish.None? {
        return Some("REWORK_NOT_COMPLETED");
      }
      var pass := passed && RepeatInspection(views.observations, finish.value);
      var decisionsBefore, ncrsBefore := decisions, db.register.ncrs;
      WriteVerification(j, pass);
      if pass {
        error := CreateResult(j, |decisions| - 1, now);
        if error.Some? {
          decisions, db.register.ncrs := decisionsBefore, ncrsBefore;
        }
      }
    }

    /** request_inspection */
    method RequestInspection(j: nat) returns (error: Option<string>)
      modifies this`decisions, db.register
      ensures match InspectionRequested(old(State()), j)
              case Error(code) => error == Some(code) && State() == old(State())
              case Done(office) => error == None && State() == office
    {
      if j >= |db.register.ncrs| {
        return Some("NOT_FOUND");
      }
      var n := db.register.ncrs[j].(verdict := NeedsExtraCheck);
      decisions := decisions + [Decision(j, NeedsExtraCheck, n.disposition, ReinspectionRequired,
                                         n.currentVersion, Latest(decisions, j))];
      db.register.ncrs := db.register.ncrs[j := n.(containment := ReinspectionRequired)];
      error := None;
    }

    /** review_nonconformance */
    method Review(j: nat, v: Verdict) returns (error: Option<string>)
      modifies db.register
      ensures match Reviewed(old(State()), j, v)
              case Error(code) => error == Some(code) && State() == old(State())
              case Done(office) => error == None && State() == office
    {
      if !(v.PendingReview? || v.NeedsExtraCheck?) {
        return Some("VALIDATION_ERROR");
      }
      error := GuardError(State(), j);
      if error.None? {
        db.register.ncrs := db.register.ncrs[j := db.register.ncrs[j].(verdict := v)];
      }
    }
  }
}
