/** Runs of controller decisions interleaved with ingestion, rebuilds, recovery and invalidation. */
module ReleaseRuns {
  import opened Basics
  import opened DefectBook
  import opened RawLog
  import opened Store
  import opened Ingestion
  import opened Projections
  import C = CacheAgreement
  import opened Outbox
  import opened Release

  /** One transaction: a request to an endpoint, or a step of ingestion and projection. */
  datatype Action =
    | Review(ncr: nat, verdict: Verdict)
    | Decide(ncr: nat, verdict: Verdict, disposition: Disposition, containment: Containment, now: int)
    | VerifyRework(ncr: nat, passed: bool, now: int)
    | RequestInspection(ncr: nat)
    | ApproveContainment(ncr: nat, containment: Containment)
    | Background(step: C.Step)

  ghost function ReplyTo(c: Config, o: Office, a: Action): Reply
  {
    match a
    case Review(j, v) => Reviewed(o, j, v)
    case Decide(j, v, d, k, now) => Decided(o, j, v, d, k, now)
    case VerifyRework(j, passed, now) => Verified(o, j, passed, now)
    case RequestInspection(j) => InspectionRequested(o, j)
    case ApproveContainment(j, k) => ContainmentApproved(o, j, k)
    case Background(s) =>
      if C.Possible(o.db, s) && !s.Elsewhere? then Done(o.(db := C.Perform(c, o.db, s))) else Done(o)
  }

  ghost function Act(c: Config, o: Office, a: Action): Office
  {
    match ReplyTo(c, o, a) case Done(after) => after case Error(_) => o
  }

  ghost function ActAll(c: Config, o: Office, acts: seq<Action>): Office
  {
    hide Act;
    if acts == [] then o else Act(c, ActAll(c, o, acts[..|acts| - 1]), acts[|acts| - 1])
  }

  /* ---- what rebuilds may do to the book ---- */

  /** Existing rows keep everything but their current observation and their growing analysis log. */
  ghost predicate Reanalysed(b: Book, after: Book)
    requires |b.ncrs| == |b.occurrences| && |after.ncrs| == |after.occurrences|
  {
    && |b.ncrs| <= |after.ncrs|
    && (forall k | 0 <= k < |b.ncrs| ::
          after.ncrs[k].(log := b.ncrs[k].log, currentVersion := b.ncrs[k].currentVersion) == b.ncrs[k])
    && (forall k | 0 <= k < |b.ncrs| ::
          after.occurrences[k].(currentObservation := b.occurrences[k].currentObservation) == b.occurrences[k])
    && (forall k | |b.ncrs| <= k < |after.ncrs| :: Unjudged(after.ncrs[k]))
  }

  /** Nobody has decided or closed it. */
  predicate Unjudged(n: Ncr)
  {
    n.closedAt.None? && n.disposition.InProcess?
  }

  lemma LinkReanalyses(b: Book, itemId: string, s: Sighting)
    requires Sound(b)
    ensures Sound(Link(b, itemId, s)) && Reanalysed(b, Link(b, itemId, s))
  {
    hide Link, OpenIndex, Amend;
    LinkOnlyReanalyses(b, itemId, s);
    LinkTouches(b, itemId, s);
    var i := OpenIndex(b.occurrences, itemId, s.defectType, s.component);
    if i == |b.ncrs| {
      AnalysedGood(NewNcr(i, itemId, s), s.outcome);
    }
  }

  lemma ReanalysedTransitive(a: Book, b: Book, c: Book)
    requires Paired(a) && Paired(b) && Paired(c)
    requires Reanalysed(a, b) && Reanalysed(b, c)
    ensures Reanalysed(a, c)
  {
    forall k | |a.ncrs| <= k < |c.ncrs| ensures Unjudged(c.ncrs[k]) {
      if k < |b.ncrs| { assert Unjudged(b.ncrs[k]); }
    }
  }

  lemma {:induction false} LinkAllReanalyses(b: Book, itemId: string, ss: seq<Sighting>)
    requires Sound(b)
    ensures Sound(LinkAll(b, itemId, ss)) && Reanalysed(b, LinkAll(b, itemId, ss))
  {
    if ss != [] {
      hide Link, Reanalysed, OneOpenPerKey, Analyses;
      var before := LinkAll(b, itemId, ss[..|ss| - 1]);
      LinkAllReanalyses(b, itemId, ss[..|ss| - 1]);
      LinkReanalyses(before, itemId, ss[|ss| - 1]);
      ReanalysedTransitive(b, before, LinkAll(b, itemId, ss));
    } else {
      assert LinkAll(b, itemId, ss) == b;
    }
  }

  lemma RebuildReanalyses(db: Db, itemId: string)
    requires Sound(db.book)
    ensures Sound(Rebuild(db, itemId).book) && Reanalysed(db.book, Rebuild(db, itemId).book)
  {
    hide ItemRows, LinkAll, SightingsFor, RoutesAfter, FromScratch, ViewsOf, MaxSeq;
    LinkAllReanalyses(db.book, itemId, SightingsFor(db, itemId));
  }

  lemma {:induction false} RecoveryReanalyses(db: Db, ids: seq<string>, failing: set<string>)
    requires Sound(db.book)
    ensures Sound(RecoverEach(db, ids, failing).book) && Reanalysed(db.book, RecoverEach(db, ids, failing).book)
  {
    if ids != [] {
      hide Rebuild, Reanalysed, OneOpenPerKey, Analyses;
      var before, id := RecoverEach(db, ids[..|ids| - 1], failing), ids[|ids| - 1];
      RecoveryReanalyses(db, ids[..|ids| - 1], failing);
      if id !in failing {
        RebuildReanalyses(before, id);
        ReanalysedTransitive(db.book, before.book, Rebuild(before, id).book);
      }
    }
  }

  /** Ingestion, rebuilds, recovery and invalidation never change a verdict, disposition, containment, verification or
      closing, never reopen an occurrence, and keep the book sound. */
  lemma BackgroundReanalyses(c: Config, db: Db, s: C.Step)
    requires Sound(db.book) && !s.Elsewhere?
    ensures Sound(C.Perform(c, db, s).book) && Reanalysed(db.book, C.Perform(c, db, s).book)
  {
    hide Rebuild, RecoverEach, Sound, StopAt;
    match s
    case Deliver(d) => assert Ingest(c, db, d).book == db.book;
    case RebuildOk(i) => RebuildReanalyses(db, i);
    case RebuildFails(_) =>
    case Recover(picked, failing) => RecoveryReanalyses(db, picked, failing);
    case Invalidate(p, affected, failing) =>
      var n := StopAt(affected, failing);
      if n > 0 || affected == [] { RecoveryReanalyses(WithPeriod(db, p), affected[..n], {}); }
  }

  /* ---- what every step keeps ---- */

  /** Decisions concern existing nonconformances and name their predecessor on the same one. */
  ghost predicate DecisionsLinked(ds: seq<Decision>, ncrs: nat)
  {
    ds == [] ||
    (var init, d := ds[..|ds| - 1], ds[|ds| - 1];
     DecisionsLinked(init, ncrs) && d.ncr < ncrs && d.previous == Latest(init, d.ncr))
  }

  /** The result exports a committed decision with an exportable disposition, on that decision's nonconformance. */
  ghost predicate Exports(r: QualityResult, ds: seq<Decision>, ncrs: seq<Ncr>)
  {
    && r.messageId == r.decision == r.payload.messageId == r.payload.decision
    && r.decision < |ds|
    && var d := ds[r.decision];
    && (d.verdict.Confirmed? || d.verdict.Rejected?) && Exportable(d.disposition)
    && r.payload.verdict == d.verdict && r.payload.disposition == d.disposition &&
      r.payload.containment == d.containment
    && r.payload.ncr == d.ncr < |ncrs|
    && r.itemId == r.payload.itemId == ncrs[d.ncr].itemId
  }

  /** Results are in decision order, each with its own outbox message of the same payload. */
  ghost predicate Traced(o: Office)
  {
    && |o.outbox| == |o.results|
    && (forall k | 0 <= k < |o.results| :: Exports(o.results[k], o.decisions, o.db.book.ncrs))
    && (forall i, k | 0 <= i < k < |o.results| :: o.results[i].decision < o.results[k].decision)
    && (forall k | 0 <= k < |o.results| ::
          o.outbox[k].messageId == o.results[k].messageId && o.outbox[k].payload == o.results[k].payload)
  }

  predicate Exported(results: seq<QualityResult>, j: nat)
  {
    exists r | r in results :: r.payload.ncr == j
  }

  /** A nonconformance is closed exactly when a result was exported for it. */
  ghost predicate ClosedIffExported(o: Office)
  {
    forall j | 0 <= j < |o.db.book.ncrs| :: o.db.book.ncrs[j].closedAt.Some? <==> Exported(o.results, j)
  }

  function LastDisposition(ds: seq<Decision>, j: nat): Disposition
  {
    match Latest(ds, j) case None => InProcess case Some(k) => ds[k].disposition
  }

  /** A nonconformance carries the disposition of its latest decision. */
  ghost predicate Followed(o: Office)
  {
    forall j | 0 <= j < |o.db.book.ncrs| :: o.db.book.ncrs[j].disposition == LastDisposition(o.decisions, j)
  }

  lemma LastDispositionSnoc(ds: seq<Decision>, d: Decision, j: nat)
    ensures LastDisposition(ds + [d], j) == if d.ncr == j then d.disposition else LastDisposition(ds, j)
  {
    assert (ds + [d])[..|ds|] == ds;
  }

  lemma {:induction false} NothingDecidedYet(ds: seq<Decision>, ncrs: nat, j: nat)
    requires DecisionsLinked(ds, ncrs) && j >= ncrs
    ensures LastDisposition(ds, j) == InProcess
  {
    if ds != [] {
      NothingDecidedYet(ds[..|ds| - 1], ncrs, j);
    }
  }

  ghost predicate Filed(o: Office)
  {
    && Sound(o.db.book)
    && Followed(o)
    && DecisionsLinked(o.decisions, |o.db.book.ncrs|)
    && Traced(o)
    && ClosedIffExported(o)
  }

  lemma {:induction false} DecisionsLinkedMore(ds: seq<Decision>, few: nat, many: nat)
    requires DecisionsLinked(ds, few) && few <= many
    ensures DecisionsLinked(ds, many)
  {
    if ds != [] {
      DecisionsLinkedMore(ds[..|ds| - 1], few, many);
    }
  }

  /** The nonconformance as far as the book's soundness and the export trace see it. */
  predicate SameCore(a: Ncr, b: Ncr)
  {
    && a.occurrence == b.occurrence && a.itemId == b.itemId && a.defectType == b.defectType &&
      a.component == b.component
    && a.closedAt == b.closedAt && a.currentVersion == b.currentVersion && a.log == b.log
  }

  lemma WithNcrSound(db: Db, j: nat, n: Ncr)
    requires Sound(db.book) && j < |db.book.ncrs| && SameCore(db.book.ncrs[j], n)
    ensures Sound(WithNcr(db, j, n).book)
  {
    hide GoodLog;
  }

  lemma ClosedBookSound(b: Book, j: nat, now: int)
    requires Sound(b) && j < |b.ncrs|
    ensures Sound(ClosedBook(b, j, now))
  {
    hide GoodLog;
    var after := ClosedBook(b, j, now);
    assert forall k | 0 <= k < |b.ncrs| ::
        SameKey(after.occurrences[k], b.occurrences[k]) && (after.occurrences[k].open ==> b.occurrences[k].open);
    assert forall k | 0 <= k < |b.ncrs| ::
        after.ncrs[k].log == b.ncrs[k].log && after.ncrs[k].currentVersion == b.ncrs[k].currentVersion;
  }

  /** Writing a linked decision and fields outside the core keeps everything filed. */
  lemma WrittenFiled(o: Office, after: Office, j: nat, n: Ncr, added: seq<Decision>)
    requires Filed(o) && j < |o.db.book.ncrs| && SameCore(o.db.book.ncrs[j], n)
    requires added == [] ==> n.disposition == o.db.book.ncrs[j].disposition
    requires added != [] ==> |added| == 1 && added[0].ncr == j && added[0].previous == Latest(o.decisions, j)
    requires added != [] ==> added[0].disposition == n.disposition
    requires after.db.book == WithNcr(o.db, j, n).book && after.decisions == o.decisions + added
    requires after.results == o.results && after.outbox == o.outbox
    ensures Filed(after)
  {
    hide Sound, Exported, LastDisposition, Latest;
    WithNcrSound(o.db, j, n);
    if added == [] {
      assert after.decisions == o.decisions;
    } else {
      assert added == [added[0]];
      assert after.decisions[..|o.decisions|] == o.decisions;
      forall i | 0 <= i < |o.db.book.ncrs|
        ensures after.db.book.ncrs[i].disposition == LastDisposition(after.decisions, i)
      {
        LastDispositionSnoc(o.decisions, added[0], i);
      }
    }
    forall k | 0 <= k < |after.results| ensures Exports(after.results[k], after.decisions, after.db.book.ncrs) {
      assert Exports(o.results[k], o.decisions, o.db.book.ncrs);
    }
  }

  lemma ExportedSnoc(results: seq<QualityResult>, r: QualityResult, j: nat)
    ensures Exported(results + [r], j) <==> Exported(results, j) || r.payload.ncr == j
  {
    if r.payload.ncr == j { assert r in results + [r]; }
    if Exported(results, j) {
      var x :| x in results && x.payload.ncr == j;
      assert x in results + [r];
    }
  }

  /** The decision just written is the newest, concerns j and has no result yet. */
  ghost predicate Fresh(o: Office, j: nat)
  {
    && o.decisions != [] && o.decisions[|o.decisions| - 1].ncr == j
    && forall k | 0 <= k < |o.results| :: o.results[k].decision < |o.decisions| - 1
  }

  /** What creating the newest decision's result changes. */
  ghost predicate OneResultMore(o: Office, after: Office, j: nat, now: int)
    requires j < |o.db.book.ncrs| && o.decisions != []
  {
    var d, n := |o.decisions| - 1, o.db.book.ncrs[j];
    var p := PayloadFor(n, d, o.decisions[d], now);
    && AuthorizeError(n, j, o.decisions[d]).None?
    && after.db.book == ClosedBook(o.db.book, j, now) && after.decisions == o.decisions
    && after.results == o.results + [QualityResult(d, d, n.itemId, p)]
    && after.outbox == o.outbox + [Queue(p, now)]
  }

  lemma CreatedMeans(o: Office, j: nat, now: int)
    requires j < |o.db.book.ncrs| && Fresh(o, j)
    requires Created(o, j, |o.decisions| - 1, now).Done?
    ensures OneResultMore(o, Created(o, j, |o.decisions| - 1, now).office, j, now)
  {
    assert ResultOf(o.results, |o.decisions| - 1) == |o.results|;
  }

  lemma CreatedDoneIff(o: Office, j: nat, d: nat, now: int)
    requires j < |o.db.book.ncrs| && d < |o.decisions|
    ensures Created(o, j, d, now).Done? <==> AuthorizeError(o.db.book.ncrs[j], j, o.decisions[d]).None?
  {
  }

  lemma CreatedTraced(o: Office, after: Office, j: nat, now: int)
    requires j < |o.db.book.ncrs| && Fresh(o, j) && OneResultMore(o, after, j, now)
    requires Traced(o)
    ensures Traced(after)
  {
    forall k | 0 <= k < |after.results| ensures Exports(after.results[k], after.decisions, after.db.book.ncrs) {
      if k < |o.results| { assert Exports(o.results[k], o.decisions, o.db.book.ncrs); }
    }
  }

  lemma CreatedClosed(o: Office, after: Office, j: nat, now: int)
    requires j < |o.db.book.ncrs| && Fresh(o, j) && OneResultMore(o, after, j, now)
    requires ClosedIffExported(o)
    ensures ClosedIffExported(after)
  {
    hide Exported;
    forall i | 0 <= i < |o.db.book.ncrs| ensures after.db.book.ncrs[i].closedAt.Some? <==> Exported(after.results, i) {
      ExportedSnoc(o.results, after.results[|o.results|], i);
    }
  }

  /** Creating the result of the decision just written keeps everything filed and adds exactly one result, for it. */
  lemma CreatedFiled(o: Office, j: nat, now: int)
    requires Filed(o) && j < |o.db.book.ncrs| && Fresh(o, j)
    requires Created(o, j, |o.decisions| - 1, now).Done?
    ensures var after := Created(o, j, |o.decisions| - 1, now).office;
            && Filed(after)
            && after.decisions == o.decisions
            && |after.results| == |o.results| + 1 && o.results <= after.results
            && after.results[|o.results|].decision == |o.decisions| - 1
  {
    hide Created, Sound, DecisionsLinked, Traced, ClosedIffExported;
    var after := Created(o, j, |o.decisions| - 1, now).office;
    CreatedMeans(o, j, now);
    CreatedTraced(o, after, j, now);
    CreatedClosed(o, after, j, now);
    ClosedBookSound(o.db.book, j, now);
    assert |after.db.book.ncrs| == |o.db.book.ncrs|;
  }

  lemma OlderDecisions(o: Office, k: nat)
    requires Filed(o) && k < |o.results|
    ensures o.results[k].decision < |o.decisions|
  {
    assert Exports(o.results[k], o.decisions, o.db.book.ncrs);
  }

  lemma DecideFiled(o: Office, j: nat, v: Verdict, d: Disposition, k: Containment, now: int)
    requires Filed(o) && Decided(o, j, v, d, k, now).Done?
    ensures Filed(Decided(o, j, v, d, k, now).office)
  {
    hide Filed, Created;
    var n := o.db.book.ncrs[j];
    var written := DecisionWritten(o, j, v, d, k);
    WrittenFiled(o, written, j, DecidedNcr(n, v, d, k), [written.decisions[|o.decisions|]]);
    if Exportable(d) {
      forall i | 0 <= i < |o.results| ensures o.results[i].decision < |o.decisions| { OlderDecisions(o, i); }
      CreatedFiled(written, j, now);
    }
  }

  lemma VerifyFiled(o: Office, j: nat, passed: bool, now: int)
    requires Filed(o) && Verified(o, j, passed, now).Done?
    ensures Filed(Verified(o, j, passed, now).office)
  {
    hide Filed, Created, EffectivePass;
    var n := o.db.book.ncrs[j];
    var pass := EffectivePass(o, j, passed);
    var written := VerificationWritten(o, j, pass);
    WrittenFiled(o, written, j, VerifiedNcr(n, pass), [written.decisions[|o.decisions|]]);
    if pass {
      forall i | 0 <= i < |o.results| ensures o.results[i].decision < |o.decisions| { OlderDecisions(o, i); }
      CreatedFiled(written, j, now);
    }
  }

  lemma BackgroundFiled(c: Config, o: Office, s: C.Step)
    requires Filed(o) && !s.Elsewhere?
    ensures Filed(o.(db := C.Perform(c, o.db, s)))
  {
    hide C.Perform, Sound, Exported, LastDisposition;
    var after := o.(db := C.Perform(c, o.db, s));
    BackgroundReanalyses(c, o.db, s);
    DecisionsLinkedMore(o.decisions, |o.db.book.ncrs|, |after.db.book.ncrs|);
    forall k | 0 <= k < |after.results| ensures Exports(after.results[k], after.decisions, after.db.book.ncrs) {
      assert Exports(o.results[k], o.decisions, o.db.book.ncrs);
    }
    forall j | |o.db.book.ncrs| <= j < |after.db.book.ncrs|
      ensures !Exported(o.results, j) && LastDisposition(o.decisions, j) == InProcess
    {
      NotExported(o, j);
      NothingDecidedYet(o.decisions, |o.db.book.ncrs|, j);
    }
  }

  lemma NotExported(o: Office, j: nat)
    requires Traced(o) && j >= |o.db.book.ncrs|
    ensures !Exported(o.results, j)
  {
    forall r | r in o.results ensures r.payload.ncr != j {
      var k :| 0 <= k < |o.results| && o.results[k] == r;
      assert Exports(o.results[k], o.decisions, o.db.book.ncrs);
    }
  }

  lemma ActFiled(c: Config, o: Office, a: Action)
    requires Filed(o)
    ensures Filed(Act(c, o, a))
  {
    hide Filed, Decided, Verified, C.Perform, C.Possible, EvidenceFailed;
    var after := Act(c, o, a);
    match a
    case Review(j, v) =>
      if Reviewed(o, j, v).Done? { WrittenFiled(o, after, j, o.db.book.ncrs[j].(verdict := v), []); }
    case Decide(j, v, d, k, now) =>
      if Decided(o, j, v, d, k, now).Done? { DecideFiled(o, j, v, d, k, now); }
    case VerifyRework(j, passed, now) =>
      if Verified(o, j, passed, now).Done? { VerifyFiled(o, j, passed, now); }
    case RequestInspection(j) =>
      if j < |o.db.book.ncrs| {
        var asked := o.db.book.ncrs[j].(verdict := NeedsExtraCheck, containment := ReinspectionRequired);
        WrittenFiled(o, after, j, asked, [after.decisions[|o.decisions|]]);
      }
    case ApproveContainment(j, k) =>
      if j < |o.db.book.ncrs| { WrittenFiled(o, after, j, o.db.book.ncrs[j].(containment := k), []); }
    case Background(s) =>
      if C.Possible(o.db, s) && !s.Elsewhere? { BackgroundFiled(c, o, s); }
  }

  lemma NothingFiled(o: Office)
    requires o.db.book == Book([], []) && o.decisions == [] && o.results == [] && o.outbox == []
    ensures Filed(o)
  {
  }

  /** In every run of decisions, reviews, verifications, rebuilds and invalidations from empty release tables: at most
      one open occurrence per key and one nonconformance per occurrence; a nonconformance is closed exactly when a
      result was exported for it, and carries the disposition of its latest decision; every result and outbox message
      traces to its own committed decision with an exportable disposition; and each decision names the previous one on
      its nonconformance. */
  lemma {:induction false} RunsFiled(c: Config, o: Office, acts: seq<Action>)
    requires o.db.book == Book([], []) && o.decisions == [] && o.results == [] && o.outbox == []
    ensures Filed(ActAll(c, o, acts))
  {
    hide Filed, Act;
    if acts == [] {
      NothingFiled(o);
    } else {
      RunsFiled(c, o, acts[..|acts| - 1]);
      ActFiled(c, ActAll(c, o, acts[..|acts| - 1]), acts[|acts| - 1]);
    }
  }

  /* ---- the rework gate ---- */

  /** The action is a rework verification of n that passes in this state. */
  predicate Passes(o: Office, a: Action, n: nat)
  {
    a.VerifyRework? && a.ncr == n && GuardError(o, n).None? && EffectivePass(o, n, a.passed)
  }

  predicate NoNewResult(before: seq<QualityResult>, after: seq<QualityResult>, n: nat)
  {
    before <= after && forall k | |before| <= k < |after| :: after[k].payload.ncr != n
  }

  predicate Waits(o: Office, n: nat)
  {
    n < |o.db.book.ncrs| && Gated(o.db.book.ncrs[n])
  }

  lemma BackgroundWaits(c: Config, o: Office, s: C.Step, n: nat)
    requires Filed(o) && Waits(o, n) && !s.Elsewhere?
    ensures Waits(o.(db := C.Perform(c, o.db, s)), n)
  {
    hide C.Perform, OneOpenPerKey, Analyses;
    BackgroundReanalyses(c, o.db, s);
  }

  lemma DecideWaits(o: Office, n: nat, j: nat, v: Verdict, d: Disposition, k: Containment, now: int)
    requires Waits(o, n) && Decided(o, j, v, d, k, now).Done?
    ensures var after := Decided(o, j, v, d, k, now).office;
            Waits(after, n) && NoNewResult(o.results, after.results, n)
  {
    hide EvidenceFailed, ResultOf, Latest, WithStatus;
  }

  lemma VerifyWaits(o: Office, n: nat, j: nat, passed: bool, now: int)
    requires Waits(o, n) && Verified(o, j, passed, now).Done?
    requires j == n ==> !EffectivePass(o, n, passed)
    ensures var after := Verified(o, j, passed, now).office;
            Waits(after, n) && NoNewResult(o.results, after.results, n)
  {
    hide EvidenceFailed, ResultOf, Latest, WithStatus, EffectivePass, ReworkFinish;
  }

  /** While a nonconformance waits, only a passing verification lets anything out for it. */
  lemma GateStep(c: Config, o: Office, a: Action, n: nat)
    requires Filed(o) && Waits(o, n) && !Passes(o, a, n)
    ensures Waits(Act(c, o, a), n) && NoNewResult(o.results, Act(c, o, a).results, n)
  {
    hide Filed, C.Perform, C.Possible, EvidenceFailed, EffectivePass, Decided, Verified;
    match a
    case Decide(j, v, d, k, now) =>
      if Decided(o, j, v, d, k, now).Done? { DecideWaits(o, n, j, v, d, k, now); }
    case VerifyRework(j, passed, now) =>
      if Verified(o, j, passed, now).Done? {
        VerifiedGuard(o, j, passed, now);
        VerifyWaits(o, n, j, passed, now);
      }
    case Background(s) =>
      if C.Possible(o.db, s) && !s.Elsewhere? { BackgroundWaits(c, o, s, n); }
    case _ =>
  }

  lemma VerifiedGuard(o: Office, j: nat, passed: bool, now: int)
    requires Verified(o, j, passed, now).Done?
    ensures GuardError(o, j).None?
  {
  }

  /** Some action of the run is a passing rework verification of n. */
  ghost predicate SomePass(c: Config, o: Office, acts: seq<Action>, n: nat)
  {
    hide Passes, ActAll;
    exists k | 0 <= k < |acts| :: Passes(ActAll(c, o, acts[..k]), acts[k], n)
  }

  lemma SomePassSnoc(c: Config, o: Office, acts: seq<Action>, n: nat)
    requires acts != []
    ensures SomePass(c, o, acts, n) <==>
            SomePass(c, o, acts[..|acts| - 1], n) || Passes(ActAll(c, o, acts[..|acts| - 1]), acts[|acts| - 1], n)
  {
    hide Passes, ActAll;
    var init := acts[..|acts| - 1];
    forall k | 0 <= k < |init| ensures acts[..k] == init[..k] && acts[k] == init[k] { }
  }

  /** The rework gate over whole runs: from a state in which the nonconformance waits, either some action of the run is
      a passing rework verification of it, or it still waits and no result was created for it. */
  lemma {:induction false} ReworkGate(c: Config, o: Office, acts: seq<Action>, n: nat)
    requires Filed(o) && Waits(o, n)
    ensures var after := ActAll(c, o, acts);
            && Filed(after)
            && (SomePass(c, o, acts, n) || (Waits(after, n) && NoNewResult(o.results, after.results, n)))
  {
    hide Filed, Act, Waits, Passes, SomePass;
    if acts != [] {
      var init, a := acts[..|acts| - 1], acts[|acts| - 1];
      var before := ActAll(c, o, init);
      ReworkGate(c, o, init, n);
      ActFiled(c, before, a);
      SomePassSnoc(c, o, acts, n);
      if !SomePass(c, o, acts, n) {
        GateStep(c, before, a, n);
      }
    }
  }

  /** A committed REWORK_REQUIRED decision makes its nonconformance wait; hence, whatever happens before and after it, a
      later result for that nonconformance needs a passing rework verification after the decision. */
  lemma ReworkDecisionGates(c: Config, o: Office, n: nat, v: Verdict, k: Containment, now: int, acts: seq<Action>)
    requires Filed(o) && Decided(o, n, v, ReworkRequired, k, now).Done?
    ensures var decided := Act(c, o, Decide(n, v, ReworkRequired, k, now));
            SomePass(c, decided, acts, n) || NoNewResult(decided.results, ActAll(c, decided, acts).results, n)
  {
    hide Filed, EvidenceFailed, Passes, ActAll, SomePass, Latest;
    var decided := Act(c, o, Decide(n, v, ReworkRequired, k, now));
    ActFiled(c, o, Decide(n, v, ReworkRequired, k, now));
    ReworkGate(c, decided, acts, n);
  }

  /** What a pass stands on: a completed rework run for this very nonconformance, and a trusted inspection of its item
      without defect at or after the finish of every such run. */
  lemma PassMeans(o: Office, a: Action, n: nat)
    requires Passes(o, a, n)
    ensures n < |o.db.book.ncrs| && a.passed
    ensures var views := ViewsAt(o.db, o.db.book.ncrs[n].itemId);
            && (exists r | r in views.runs :: IsRework(r, n))
            && exists x | x in views.observations ::
                 && x.trust.Trusted? && x.inspection.result.NoDefect?
                 && forall r | r in views.runs && IsRework(r, n) :: r.finishedAt.Some? && r.finishedAt.value <= x.at
  {
    hide EvidenceFailed;
    var views := ViewsAt(o.db, o.db.book.ncrs[n].itemId);
    var f := ReworkFinish(views.runs, n).value;
    var x :| x in views.observations && x.at >= f && x.inspection.result.NoDefect? && x.trust.Trusted?;
  }

  /** A direct exportable decision is let through exactly when the nonconformance exists, its evidence is intact and it
      does not wait for rework; it then closes the nonconformance and exports one result with the decision's content. */
  lemma DirectReleaseIff(o: Office, n: nat, v: Verdict, d: Disposition, k: Containment, now: int)
    requires Filed(o) && ValidDecision(v, d, k) && Exportable(d)
    ensures var r := Decided(o, n, v, d, k, now);
            && (r.Done? <==> n < |o.db.book.ncrs| && !EvidenceFailed(o.db, o.db.book.ncrs[n].itemId) && !Waits(o, n))
            && (r.Done? ==>
                  && |r.office.results| == |o.results| + 1 && |r.office.decisions| == |o.decisions| + 1
                  && r.office.db.book.ncrs[n].closedAt == Some(now)
                  && r.office.results[|o.results|].payload ==
                     ResultPayload(|o.decisions|, o.db.book.ncrs[n].itemId, n, |o.decisions|, v, d, k, now))
  {
    hide Filed, EvidenceFailed, Latest, Created, WithStatus;
    if GuardError(o, n).None? {
      var written := DecisionWritten(o, n, v, d, k);
      forall i | 0 <= i < |o.results| ensures o.results[i].decision < |o.decisions| { OlderDecisions(o, i); }
      CreatedDoneIff(written, n, |o.decisions|, now);
      if Created(written, n, |o.decisions|, now).Done? { CreatedMeans(written, n, now); }
    }
  }

  /** A failed verification also writes a REWORK_REQUIRED decision, but does not set the resolution type: a direct
      release right after it is refused exactly when a rework had been decided before. */
  lemma FailedVerificationGatesIff(o: Office, n: nat, passed: bool, t0: int, t1: int)
    requires Filed(o) && Verified(o, n, passed, t0).Done? && !EffectivePass(o, n, passed)
    ensures var failed := Verified(o, n, passed, t0).office;
            && failed.decisions[|o.decisions|].disposition.ReworkRequired?
            && failed.db.book.ncrs[n].disposition.ReworkRequired?
            && (Decided(failed, n, Confirmed, Released, Uncontained, t1).Error? <==> o.db.book.ncrs[n].rework)
  {
    hide Filed, EvidenceFailed, EffectivePass, Latest;
    VerifyFiled(o, n, passed, t0);
    var failed := Verified(o, n, passed, t0).office;
    assert EvidenceFailed(failed.db, o.db.book.ncrs[n].itemId) == EvidenceFailed(o.db, o.db.book.ncrs[n].itemId) by {
      EvidenceSame(o.db, failed.db, o.db.book.ncrs[n].itemId);
    }
    DirectReleaseIff(failed, n, Confirmed, Released, Uncontained, t1);
  }

  lemma EvidenceSame(a: Db, b: Db, itemId: string)
    requires a.raws == b.raws && a.streams == b.streams
    ensures EvidenceFailed(a, itemId) == EvidenceFailed(b, itemId)
  {
  }
}
