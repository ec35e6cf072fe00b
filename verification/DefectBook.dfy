/** The defect loop of backend/app/projections/rebuild.py (lines 126-210 and 433-493): occurrences,
    nonconformances and their append-only analysis logs. */
module DefectBook {
  import opened Basics
  import opened Events
  import opened BirthWindow
  import opened Replay
  import opened Occurrences

  datatype Verdict = PendingReview | NeedsExtraCheck | Confirmed | Rejected

  datatype Disposition = InProcess | ReworkRequired | Released | Scrapped | UseAsIs

  datatype Containment = Uncontained | Hold | ReinspectionRequired | ReviewRequired

  datatype Verification = AwaitingRework | VerificationPassed | VerificationFailed

  datatype AnalysisStatus = WindowBounded | WindowLeftOpen | EvidenceInvalidated

  /** An analysis_versions row with its evidence. */
  datatype Version = Version(
    number: nat, status: AnalysisStatus, left: Option<int>, right: Option<int>, reason: string, evidence: seq<Evidence>)

  /** A nonconformities row; log holds its analysis_versions by version, rework stands for resolution_type "rework". */
  datatype Ncr = Ncr(
    occurrence: nat, itemId: string, defectType: string, component: Option<string>,
    verdict: Verdict, disposition: Disposition, containment: Containment,
    openedAt: int, closedAt: Option<int>, currentVersion: nat,
    rework: bool, verification: Option<Verification>, log: seq<Version>)

  datatype Book = Book(occurrences: seq<Occurrence>, ncrs: seq<Ncr>)

  /** What one defect of one observation contributes to its NCR's log. */
  datatype Outcome = Undecided | Windowed(window: Window) | Withdrawn(evidence: Evidence)

  /** One defect of one defect observation. */
  datatype Sighting = Sighting(
    eventId: string, at: int, trusted: bool, defectType: string, component: Option<string>, outcome: Outcome)

  /* ---- the analysis log ---- */

  /** The part of a version that _analysis_changed compares. */
  datatype Finding = Finding(status: AnalysisStatus, left: Option<int>, right: Option<int>)

  function FindingOf(v: Version): Finding
  {
    Finding(v.status, v.left, v.right)
  }

  function Expected(o: Outcome): Finding
    requires !o.Undecided?
  {
    match o
    case Windowed(w) => Finding(if w.status.Bounded? then WindowBounded else WindowLeftOpen, w.left, Some(w.right))
    case Withdrawn(_) => Finding(EvidenceInvalidated, None, None)
  }

  /** _create_analysis and _create_invalidated_analysis. */
  function Amend(log: seq<Version>, o: Outcome): seq<Version>
  {
    var next := if log == [] then 1 else log[|log| - 1].number + 1;
    match o
    case Undecided => log
    case Windowed(w) =>
      if log != [] && FindingOf(log[|log| - 1]) == Expected(o) then log
      else
        var f := Expected(o);
        var reason := if log == [] then "initial_detection" else "late_event_rebuild";
        log + [Version(next, f.status, f.left, f.right, reason, w.evidence)]
    case Withdrawn(e) =>
      if log != [] && log[|log| - 1].status.EvidenceInvalidated? then log
      else log + [Version(next, EvidenceInvalidated, None, None, "control_device_invalidation", [e])]
  }

  function AmendAll(log: seq<Version>, os: seq<Outcome>): seq<Version>
  {
    if os == [] then log else Amend(AmendAll(log, os[..|os| - 1]), os[|os| - 1])
  }

  /** Numbered 1..n, neighbours differ, a withdrawn analysis has no boundaries. */
  ghost predicate GoodLog(log: seq<Version>)
  {
    && (forall k | 0 <= k < |log| :: log[k].number == k + 1)
    && (forall k | 0 < k < |log| :: FindingOf(log[k - 1]) != FindingOf(log[k]))
    && (forall k | 0 <= k < |log| && log[k].status.EvidenceInvalidated? :: log[k].left.None? && log[k].right.None?)
  }

  lemma AmendGood(log: seq<Version>, o: Outcome)
    requires GoodLog(log)
    ensures GoodLog(Amend(log, o))
    ensures log <= Amend(log, o)
    ensures !o.Undecided? ==> Amend(log, o) != [] && FindingOf(Amend(log, o)[|Amend(log, o)| - 1]) == Expected(o)
  {
  }

  lemma {:induction false} AmendAllGood(log: seq<Version>, os: seq<Outcome>)
    requires GoodLog(log)
    ensures GoodLog(AmendAll(log, os)) && log <= AmendAll(log, os)
  {
    if os != [] {
      AmendAllGood(log, os[..|os| - 1]);
      AmendGood(AmendAll(log, os[..|os| - 1]), os[|os| - 1]);
    }
  }

  /** The last outcome that decides anything. */
  function LastDecided(os: seq<Outcome>): Outcome
  {
    if os == [] then Undecided
    else if !os[|os| - 1].Undecided? then os[|os| - 1]
    else LastDecided(os[..|os| - 1])
  }

  lemma AmendUndecided(log: seq<Version>)
    ensures Amend(log, Undecided) == log
  {
  }

  /** Whatever the log held, replaying outcomes leaves it ending in the last decided one. */
  lemma {:induction false} AmendAllConverges(log: seq<Version>, os: seq<Outcome>)
    requires GoodLog(log) && !LastDecided(os).Undecided?
    ensures var after := AmendAll(log, os);
            after != [] && FindingOf(after[|after| - 1]) == Expected(LastDecided(os))
  {
    hide Amend, GoodLog;
    var init, last := os[..|os| - 1], os[|os| - 1];
    AmendAllGood(log, init);
    AmendGood(AmendAll(log, init), last);
    if last.Undecided? {
      AmendUndecided(AmendAll(log, init));
      AmendAllConverges(log, init);
    }
  }

  function EvidenceOf(o: Outcome): seq<Evidence>
    requires !o.Undecided?
  {
    match o
    case Windowed(w) => w.evidence
    case Withdrawn(e) => [e]
  }

  /** The outcomes before the last decided one. */
  function BeforeLast(os: seq<Outcome>): seq<Outcome>
  {
    if os == [] then []
    else if !os[|os| - 1].Undecided? then os[..|os| - 1]
    else BeforeLast(os[..|os| - 1])
  }

  lemma {:induction false} LastDecidedAmends(log: seq<Version>, os: seq<Outcome>)
    requires !LastDecided(os).Undecided?
    ensures AmendAll(log, os) == Amend(AmendAll(log, BeforeLast(os)), LastDecided(os))
  {
    if os[|os| - 1].Undecided? {
      LastDecidedAmends(log, os[..|os| - 1]);
    }
  }

  lemma AmendEvidence(log: seq<Version>, o: Outcome)
    requires GoodLog(log) && !o.Undecided?
    ensures var after := Amend(log, o);
            && after != []
            && (after[|after| - 1].evidence == EvidenceOf(o) <==>
                || log == []
                || FindingOf(log[|log| - 1]) != Expected(o)
                || log[|log| - 1].evidence == EvidenceOf(o))
  {
  }

  /** Versions compare by status and boundaries only. After a pass the last version carries the evidence of the last
      decided outcome exactly when that outcome changed the finding, or had the very evidence already recorded. */
  lemma EvidenceFreshIff(log: seq<Version>, os: seq<Outcome>)
    requires GoodLog(log) && !LastDecided(os).Undecided?
    ensures var last := LastDecided(os);
            var before, after := AmendAll(log, BeforeLast(os)), AmendAll(log, os);
            && after != []
            && (after[|after| - 1].evidence == EvidenceOf(last) <==>
                || before == []
                || FindingOf(before[|before| - 1]) != Expected(last)
                || before[|before| - 1].evidence == EvidenceOf(last))
  {
    hide Amend, GoodLog, AmendAll, Expected, EvidenceOf, FindingOf;
    LastDecidedAmends(log, os);
    AmendAllGood(log, BeforeLast(os));
    AmendEvidence(AmendAll(log, BeforeLast(os)), LastDecided(os));
  }

  ghost predicate AllFind(os: seq<Outcome>, f: Finding)
  {
    forall o | o in os && !o.Undecided? :: Expected(o) == f
  }

  /** A pass over outcomes is silent exactly when each of them finds what the log already ends in. */
  lemma {:induction false} SilentPass(log: seq<Version>, os: seq<Outcome>)
    requires GoodLog(log) && log != []
    ensures AmendAll(log, os) == log <==> AllFind(os, FindingOf(log[|log| - 1]))
  {
    if os != [] {
      var init, last := os[..|os| - 1], os[|os| - 1];
      assert os == init + [last];
      SilentPass(log, init);
      AmendAllGood(log, init);
      AmendGood(AmendAll(log, init), last);
      assert last in os;
    }
  }

  /** Replaying the same outcomes a second time adds no version exactly when they all find the same. */
  lemma RepeatSilentIff(log: seq<Version>, os: seq<Outcome>)
    requires GoodLog(log)
    ensures AmendAll(AmendAll(log, os), os) == AmendAll(log, os) <==>
            LastDecided(os).Undecided? || AllFind(os, Expected(LastDecided(os)))
  {
    var once := AmendAll(log, os);
    AmendAllGood(log, os);
    if LastDecided(os).Undecided? {
      NothingDecided(once, os);
    } else {
      AmendAllConverges(log, os);
      SilentPass(once, os);
    }
  }

  lemma {:induction false} NothingDecided(log: seq<Version>, os: seq<Outcome>)
    requires LastDecided(os).Undecided?
    ensures AmendAll(log, os) == log
  {
    if os != [] {
      NothingDecided(log, os[..|os| - 1]);
    }
  }

  /* ---- linking sightings ---- */

  function OpenIndex(os: seq<Occurrence>, itemId: string, defectType: string, component: Option<string>): (i: nat)
    ensures i <= |os|
    ensures i < |os| ==> QueryMatches(os[i], itemId, defectType, component)
    ensures forall j | 0 <= j < i :: !QueryMatches(os[j], itemId, defectType, component)
  {
    if os == [] || QueryMatches(os[0], itemId, defectType, component) then 0
    else 1 + OpenIndex(os[1..], itemId, defectType, component)
  }

  function NcrIndex(ncrs: seq<Ncr>, occurrence: nat): (i: nat)
    ensures i <= |ncrs|
    ensures i < |ncrs| ==> ncrs[i].occurrence == occurrence
    ensures forall j | 0 <= j < i :: ncrs[j].occurrence != occurrence
  {
    if ncrs == [] || ncrs[0].occurrence == occurrence then 0 else 1 + NcrIndex(ncrs[1..], occurrence)
  }

  function NewNcr(occurrence: nat, itemId: string, s: Sighting): Ncr
  {
    Ncr(occurrence, itemId, s.defectType, s.component, if s.trusted then PendingReview else NeedsExtraCheck,
        InProcess, ReviewRequired, s.at, None, 1, false, None, [])
  }

  function Analysed(n: Ncr, o: Outcome): Ncr
  {
    if o.Withdrawn? && n.currentVersion == 0 then n
    else
      var log := Amend(n.log, o);
      n.(log := log, currentVersion := if log == n.log then n.currentVersion else log[|log| - 1].number)
  }

  function Link(b: Book, itemId: string, s: Sighting): Book
  {
    var i := OpenIndex(b.occurrences, itemId, s.defectType, s.component);
    var occurrences :=
      if i == |b.occurrences|
      then b.occurrences + [Occurrence(itemId, s.defectType, s.component, s.eventId, s.eventId, true, s.at, None)]
      else b.occurrences[i := b.occurrences[i].(currentObservation := s.eventId)];
    var j := NcrIndex(b.ncrs, i);
    var ncrs := if j == |b.ncrs| then b.ncrs + [NewNcr(i, itemId, s)] else b.ncrs;
    Book(occurrences, ncrs[j := Analysed(ncrs[j], s.outcome)])
  }

  function LinkAll(b: Book, itemId: string, ss: seq<Sighting>): Book
  {
    if ss == [] then b else Link(LinkAll(b, itemId, ss[..|ss| - 1]), itemId, ss[|ss| - 1])
  }

  /* ---- invariants of the book ---- */

  ghost predicate Paired(b: Book)
  {
    && |b.ncrs| == |b.occurrences|
    && forall i | 0 <= i < |b.ncrs| ::
         && b.ncrs[i].occurrence == i
         && b.ncrs[i].itemId == b.occurrences[i].itemId
         && b.ncrs[i].defectType == b.occurrences[i].defectType
         && b.ncrs[i].component == b.occurrences[i].component
         && (b.occurrences[i].open <==> b.ncrs[i].closedAt.None?)
         && (b.occurrences[i].open <==> b.occurrences[i].closedAt.None?)
  }

  predicate SameKey(a: Occurrence, b: Occurrence)
  {
    a.itemId == b.itemId && a.defectType == b.defectType && a.component == b.component
  }

  ghost predicate OneOpenPerKey(b: Book)
  {
    forall i, j | 0 <= i < j < |b.occurrences| && b.occurrences[i].open && b.occurrences[j].open ::
      !SameKey(b.occurrences[i], b.occurrences[j])
  }

  ghost predicate Analyses(n: Ncr)
  {
    GoodLog(n.log) && n.currentVersion == if n.log == [] then 1 else |n.log|
  }

  /** One NCR per occurrence, CLOSED iff the NCR is closed, at most one OPEN occurrence per key, logs well formed. */
  ghost predicate Sound(b: Book)
  {
    && Paired(b) && OneOpenPerKey(b)
    && forall i | 0 <= i < |b.ncrs| :: Analyses(b.ncrs[i])
  }

  lemma NcrIndexPaired(b: Book, i: nat)
    requires Paired(b) && i <= |b.ncrs|
    ensures NcrIndex(b.ncrs, i) == i
  {
    if i < |b.ncrs| { assert b.ncrs[i].occurrence == i; }
  }

  lemma AnalysedGood(n: Ncr, o: Outcome)
    requires Analyses(n)
    ensures Analyses(Analysed(n, o))
    ensures Analysed(n, o).log == Amend(n.log, o)
    ensures Analysed(n, o).(log := n.log, currentVersion := n.currentVersion) == n
  {
    AmendGood(n.log, o);
  }

  /** The rows a sighting leaves alone, and the two rows it touches. */
  ghost predicate Touches(b: Book, after: Book, i: nat, itemId: string, s: Sighting)
    requires |b.ncrs| == |b.occurrences| && i <= |b.ncrs|
  {
    && |after.ncrs| == |after.occurrences| == (if i < |b.ncrs| then |b.ncrs| else |b.ncrs| + 1)
    && (forall k | 0 <= k < |b.ncrs| && k != i ::
          after.ncrs[k] == b.ncrs[k] && after.occurrences[k] == b.occurrences[k])
    && (if i < |b.ncrs| then
          && after.occurrences[i] == b.occurrences[i].(currentObservation := s.eventId)
          && after.ncrs[i] == Analysed(b.ncrs[i], s.outcome)
        else
          && after.occurrences[i] ==
            Occurrence(itemId, s.defectType, s.component, s.eventId, s.eventId, true, s.at, None)
          && after.ncrs[i] == Analysed(NewNcr(i, itemId, s), s.outcome))
  }

  lemma LinkTouches(b: Book, itemId: string, s: Sighting)
    requires Paired(b)
    ensures Touches(b, Link(b, itemId, s), OpenIndex(b.occurrences, itemId, s.defectType, s.component), itemId, s)
  {
    var i := OpenIndex(b.occurrences, itemId, s.defectType, s.component);
    NcrIndexPaired(b, i);
  }

  lemma RelinkSound(b: Book, itemId: string, s: Sighting)
    requires Sound(b) && OpenIndex(b.occurrences, itemId, s.defectType, s.component) < |b.ncrs|
    ensures Sound(Link(b, itemId, s))
  {
    hide Link, Amend, Analysed, GoodLog, OpenIndex;
    var i := OpenIndex(b.occurrences, itemId, s.defectType, s.component);
    var after := Link(b, itemId, s);
    LinkTouches(b, itemId, s);
    AnalysedGood(b.ncrs[i], s.outcome);
    assert forall k | 0 <= k < |b.ncrs| ::
        SameKey(after.occurrences[k], b.occurrences[k]) && after.occurrences[k].open == b.occurrences[k].open;
  }

  lemma OpenSound(b: Book, itemId: string, s: Sighting)
    requires Sound(b) && OpenIndex(b.occurrences, itemId, s.defectType, s.component) == |b.ncrs|
    ensures Sound(Link(b, itemId, s))
  {
    var i := |b.ncrs|;
    var after := Link(b, itemId, s);
    LinkTouches(b, itemId, s);
    AnalysedGood(NewNcr(i, itemId, s), s.outcome);
    forall k | 0 <= k < i && after.occurrences[k].open ensures !SameKey(after.occurrences[k], after.occurrences[i]) {
      assert !QueryMatches(b.occurrences[k], itemId, s.defectType, s.component);
    }
  }

  /** Linking a sighting keeps the book sound. */
  lemma LinkSound(b: Book, itemId: string, s: Sighting)
    requires Sound(b)
    ensures Sound(Link(b, itemId, s))
  {
    if OpenIndex(b.occurrences, itemId, s.defectType, s.component) < |b.ncrs| {
      RelinkSound(b, itemId, s);
    } else {
      OpenSound(b, itemId, s);
    }
  }

  /** In a sound book the open occurrence of a key is the only one the query can find. */
  lemma OpenIndexUnique(b: Book, k: nat, itemId: string, defectType: string, component: Option<string>)
    requires OneOpenPerKey(b) && k < |b.occurrences| && QueryMatches(b.occurrences[k], itemId, defectType, component)
    ensures OpenIndex(b.occurrences, itemId, defectType, component) == k
  {
    var i := OpenIndex(b.occurrences, itemId, defectType, component);
    assert SameKey(b.occurrences[i], b.occurrences[k]);
  }

  predicate HasOpen(b: Book, itemId: string, defectType: string, component: Option<string>)
  {
    OpenIndex(b.occurrences, itemId, defectType, component) < |b.occurrences|
  }

  /** The analysis log of the open NCR of a key, empty when there is none. */
  function OpenLog(b: Book, itemId: string, defectType: string, component: Option<string>): seq<Version>
  {
    var i := OpenIndex(b.occurrences, itemId, defectType, component);
    if i < |b.occurrences| && i < |b.ncrs| then b.ncrs[i].log else []
  }

  predicate Concerns(s: Sighting, defectType: string, component: Option<string>)
  {
    s.defectType == defectType && s.component == component
  }

  lemma LinkOwnLog(b: Book, itemId: string, s: Sighting)
    requires Sound(b)
    ensures var after := Link(b, itemId, s);
            && HasOpen(after, itemId, s.defectType, s.component)
            && OpenLog(after, itemId, s.defectType, s.component) ==
               Amend(OpenLog(b, itemId, s.defectType, s.component), s.outcome)
  {
    var i := OpenIndex(b.occurrences, itemId, s.defectType, s.component);
    var after := Link(b, itemId, s);
    LinkTouches(b, itemId, s);
    LinkSound(b, itemId, s);
    OpenIndexUnique(after, i, itemId, s.defectType, s.component);
    AnalysedGood(if i < |b.ncrs| then b.ncrs[i] else NewNcr(i, itemId, s), s.outcome);
  }

  lemma LinkOtherLog(
    b: Book, itemId: string, s: Sighting, other: string, defectType: string, component: Option<string>)
    requires Sound(b) && !(other == itemId && Concerns(s, defectType, component))
    ensures var after := Link(b, itemId, s);
            && (HasOpen(after, other, defectType, component) <==> HasOpen(b, other, defectType, component))
            && OpenLog(after, other, defectType, component) == OpenLog(b, other, defectType, component)
  {
    hide Link, Amend, Analysed, GoodLog, Analyses, OpenIndex;
    var after := Link(b, itemId, s);
    LinkTouches(b, itemId, s);
    LinkSound(b, itemId, s);
    var j := OpenIndex(b.occurrences, other, defectType, component);
    if j < |b.occurrences| {
      OpenIndexUnique(after, j, other, defectType, component);
    } else {
      forall k | 0 <= k < |after.occurrences|
        ensures !QueryMatches(after.occurrences[k], other, defectType, component)
      {
        if k < |b.occurrences| {
          assert !QueryMatches(b.occurrences[k], other, defectType, component);
        }
      }
    }
  }

  /** A rebuild of one item leaves the open keys of the others alone. */
  lemma {:induction false} LinkAllOther(
    b: Book, itemId: string, ss: seq<Sighting>, other: string, defectType: string, component: Option<string>)
    requires Sound(b) && other != itemId
    ensures var after := LinkAll(b, itemId, ss);
            && Sound(after)
            && (HasOpen(after, other, defectType, component) <==> HasOpen(b, other, defectType, component))
            && OpenLog(after, other, defectType, component) == OpenLog(b, other, defectType, component)
  {
    if ss != [] {
      hide Link, Sound, HasOpen, OpenLog;
      var init := ss[..|ss| - 1];
      LinkAllOther(b, itemId, init, other, defectType, component);
      LinkSound(LinkAll(b, itemId, init), itemId, ss[|ss| - 1]);
      LinkOtherLog(LinkAll(b, itemId, init), itemId, ss[|ss| - 1], other, defectType, component);
    }
  }

  /** The outcomes of one key's sightings, in business order. */
  function OutcomesFor(ss: seq<Sighting>, defectType: string, component: Option<string>): seq<Outcome>
  {
    if ss == [] then []
    else
      var s := ss[|ss| - 1];
      OutcomesFor(ss[..|ss| - 1], defectType, component) + if Concerns(s, defectType, component) then [s.outcome]
        else []
  }

  predicate Seen(ss: seq<Sighting>, defectType: string, component: Option<string>)
  {
    ss != [] && (Concerns(ss[|ss| - 1], defectType, component) || Seen(ss[..|ss| - 1], defectType, component))
  }

  lemma {:induction false} SeenMembers(ss: seq<Sighting>, s: Sighting)
    requires s in ss
    ensures Seen(ss, s.defectType, s.component)
  {
    if s != ss[|ss| - 1] {
      assert ss == ss[..|ss| - 1] + [ss[|ss| - 1]];
      SeenMembers(ss[..|ss| - 1], s);
    }
  }

  lemma {:induction false} AmendAllConcat(log: seq<Version>, xs: seq<Outcome>, ys: seq<Outcome>)
    ensures AmendAll(log, xs + ys) == AmendAll(AmendAll(log, xs), ys)
  {
    if ys == [] {
      assert xs + ys == xs;
    } else {
      var init := ys[..|ys| - 1];
      AmendAllConcat(log, xs, init);
      assert (xs + ys)[..|xs + ys| - 1] == xs + init;
    }
  }

  lemma LinkLog(b: Book, itemId: string, s: Sighting, defectType: string, component: Option<string>)
    requires Sound(b)
    ensures var after := Link(b, itemId, s);
            && Sound(after)
            && (HasOpen(after, itemId, defectType, component) <==>
              HasOpen(b, itemId, defectType, component) || Concerns(s, defectType, component))
            && OpenLog(after, itemId, defectType, component) ==
               AmendAll(OpenLog(b, itemId, defectType, component),
                 if Concerns(s, defectType, component) then [s.outcome] else [])
  {
    LinkSound(b, itemId, s);
    if Concerns(s, defectType, component) {
      LinkOwnLog(b, itemId, s);
      assert [s.outcome][..0] == [];
    } else {
      LinkOtherLog(b, itemId, s, itemId, defectType, component);
    }
  }

  /** Factorisation: whatever else a rebuild sees, each key's log evolves by its own outcomes alone. */
  lemma {:induction false} LogsFactor(
    b: Book, itemId: string, ss: seq<Sighting>, defectType: string, component: Option<string>)
    requires Sound(b)
    ensures var after := LinkAll(b, itemId, ss);
            && Sound(after)
            && (HasOpen(after, itemId, defectType, component) <==>
                  HasOpen(b, itemId, defectType, component) || Seen(ss, defectType, component))
            && OpenLog(after, itemId, defectType, component) ==
               AmendAll(OpenLog(b, itemId, defectType, component), OutcomesFor(ss, defectType, component))
  {
    if ss != [] {
      var init, s := ss[..|ss| - 1], ss[|ss| - 1];
      LogsFactor(b, itemId, init, defectType, component);
      LinkLog(LinkAll(b, itemId, init), itemId, s, defectType, component);
      AmendAllConcat(OpenLog(b, itemId, defectType, component), OutcomesFor(init, defectType, component),
                     if Concerns(s, defectType, component) then [s.outcome] else []);
    }
  }

  /** Convergence: after a rebuild, the open key of a decided sighting ends in the finding of its last one. */
  lemma AnalysisConverges(b: Book, itemId: string, ss: seq<Sighting>, defectType: string, component: Option<string>)
    requires Sound(b) && !LastDecided(OutcomesFor(ss, defectType, component)).Undecided?
    ensures var log := OpenLog(LinkAll(b, itemId, ss), itemId, defectType, component);
            log != [] && FindingOf(log[|log| - 1]) == Expected(LastDecided(OutcomesFor(ss, defectType, component)))
  {
    LogsFactor(b, itemId, ss, defectType, component);
    AmendAllConverges(OpenLog(b, itemId, defectType, component), OutcomesFor(ss, defectType, component));
  }

  /** An immediately repeated rebuild adds no version to a key exactly when all its decided sightings find the same. */
  lemma RepeatAddsNothingIff(b: Book, itemId: string, ss: seq<Sighting>, defectType: string, component: Option<string>)
    requires Sound(b)
    ensures var once := LinkAll(b, itemId, ss);
            var twice := LinkAll(once, itemId, ss);
            var os := OutcomesFor(ss, defectType, component);
            OpenLog(twice, itemId, defectType, component) == OpenLog(once, itemId, defectType, component) <==>
            LastDecided(os).Undecided? || AllFind(os, Expected(LastDecided(os)))
  {
    var once := LinkAll(b, itemId, ss);
    LogsFactor(b, itemId, ss, defectType, component);
    LogsFactor(once, itemId, ss, defectType, component);
    assert GoodLog(OpenLog(b, itemId, defectType, component));
    RepeatSilentIff(OpenLog(b, itemId, defectType, component), OutcomesFor(ss, defectType, component));
  }

  /** What a rebuild may change in rows that already exist: the current observation of this item's open occurrences
      and the analysis log of their NCRs, which only grows. */
  ghost predicate OnlyReanalysed(b: Book, after: Book, itemId: string)
    requires |b.ncrs| == |b.occurrences| && |after.ncrs| == |after.occurrences|
  {
    && |b.ncrs| <= |after.ncrs|
    && forall k | 0 <= k < |b.ncrs| ::
         && after.ncrs[k].(log := b.ncrs[k].log, currentVersion := b.ncrs[k].currentVersion) == b.ncrs[k]
         && b.ncrs[k].log <= after.ncrs[k].log
         && after.occurrences[k].(currentObservation := b.occurrences[k].currentObservation) == b.occurrences[k]
         && (!(b.occurrences[k].open && b.occurrences[k].itemId == itemId) ==>
               after.ncrs[k] == b.ncrs[k] && after.occurrences[k] == b.occurrences[k])
  }

  lemma LinkOnlyReanalyses(b: Book, itemId: string, s: Sighting)
    requires Sound(b)
    ensures Sound(Link(b, itemId, s)) && OnlyReanalysed(b, Link(b, itemId, s), itemId)
  {
    hide Link, Amend, GoodLog, OneOpenPerKey, OpenIndex;
    var i := OpenIndex(b.occurrences, itemId, s.defectType, s.component);
    LinkTouches(b, itemId, s);
    LinkSound(b, itemId, s);
    if i < |b.ncrs| {
      AnalysedGood(b.ncrs[i], s.outcome);
      AmendGood(b.ncrs[i].log, s.outcome);
    }
  }

  lemma OnlyReanalysedTransitive(a: Book, b: Book, c: Book, itemId: string)
    requires Sound(a) && Sound(b) && Sound(c)
    requires OnlyReanalysed(a, b, itemId) && OnlyReanalysed(b, c, itemId)
    ensures OnlyReanalysed(a, c, itemId)
  {
    forall k | 0 <= k < |a.ncrs| ensures a.ncrs[k].log <= c.ncrs[k].log {
      assert a.ncrs[k].log <= b.ncrs[k].log <= c.ncrs[k].log;
    }
  }

  /** A rebuild keeps the book sound and never changes a verdict, disposition, containment or closing. */
  lemma {:induction false} RebuildOnlyReanalyses(b: Book, itemId: string, ss: seq<Sighting>)
    requires Sound(b)
    ensures Sound(LinkAll(b, itemId, ss)) && OnlyReanalysed(b, LinkAll(b, itemId, ss), itemId)
  {
    if ss != [] {
      var init := ss[..|ss| - 1];
      RebuildOnlyReanalyses(b, itemId, init);
      LinkOnlyReanalyses(LinkAll(b, itemId, init), itemId, ss[|ss| - 1]);
      OnlyReanalysedTransitive(b, LinkAll(b, itemId, init), LinkAll(b, itemId, ss), itemId);
    }
  }

  lemma {:induction false} OpensNothing(b: Book, itemId: string, ss: seq<Sighting>)
    requires Sound(b) && forall s | s in ss :: HasOpen(b, itemId, s.defectType, s.component)
    ensures |LinkAll(b, itemId, ss).ncrs| == |b.ncrs|
  {
    if ss != [] {
      var init, s := ss[..|ss| - 1], ss[|ss| - 1];
      assert ss == init + [s];
      OpensNothing(b, itemId, init);
      LogsFactor(b, itemId, init, s.defectType, s.component);
      LinkTouches(LinkAll(b, itemId, init), itemId, s);
    }
  }

  /** An immediately repeated rebuild opens no occurrence and no NCR. */
  lemma RepeatOpensNothing(b: Book, itemId: string, ss: seq<Sighting>)
    requires Sound(b)
    ensures var once := LinkAll(b, itemId, ss);
            |LinkAll(once, itemId, ss).ncrs| == |once.ncrs|
  {
    var once := LinkAll(b, itemId, ss);
    RebuildOnlyReanalyses(b, itemId, ss);
    forall s | s in ss ensures HasOpen(once, itemId, s.defectType, s.component) {
      LogsFactor(b, itemId, ss, s.defectType, s.component);
      SeenMembers(ss, s);
    }
    OpensNothing(once, itemId, ss);
  }

  /* ---- from observations to sightings ---- */

  function DefectOf(o: Observation, d: Defect): DefectAt
  {
    DefectAt(o.eventId, o.at, d.defectType, Or(d.component, o.inspection.component))
  }

  function InvalidatedEvidence(o: Observation): Evidence
  {
    Evidence("DEVICE_VALIDITY", "LIMITATION", Some(o.eventId), Some(o.at), DeviceDetail(o.inspection.device, o.reasons))
  }

  function OutcomeOf(o: Observation, d: Defect, p: Projection, limitations: seq<Evidence>): Outcome
  {
    if o.trust.Trusted? then
      Windowed(WindowOf(DefectOf(o, d), p.observations, p.runs, p.machines, p.actions, limitations))
    else if o.trust.Invalidated? then Withdrawn(InvalidatedEvidence(o))
    else Undecided
  }

  function SightingOf(o: Observation, d: Defect, p: Projection, limitations: seq<Evidence>): Sighting
  {
    Sighting(o.eventId, o.at, o.trust.Trusted?, d.defectType, Or(d.component, o.inspection.component),
      OutcomeOf(o, d, p, limitations))
  }

  function DefectSightings(o: Observation, ds: seq<Defect>, p: Projection, limitations: seq<Evidence>): seq<Sighting>
  {
    if ds == [] then []
    else DefectSightings(o, ds[..|ds| - 1], p, limitations) + [SightingOf(o, ds[|ds| - 1], p, limitations)]
  }

  function Sightings(os: seq<Observation>, p: Projection, limitations: seq<Evidence>): seq<Sighting>
  {
    if os == [] then []
    else
      var o := os[|os| - 1];
      Sightings(os[..|os| - 1], p, limitations) +
      if o.inspection.result.DefectDetected? then DefectSightings(o, o.inspection.defects, p, limitations) else []
  }

  lemma {:induction false} LinkAllConcat(b: Book, itemId: string, xs: seq<Sighting>, ys: seq<Sighting>)
    ensures LinkAll(b, itemId, xs + ys) == LinkAll(LinkAll(b, itemId, xs), itemId, ys)
  {
    hide Link;
    if ys == [] {
      assert xs + ys == xs;
    } else {
      var init := ys[..|ys| - 1];
      LinkAllConcat(b, itemId, xs, init);
      assert (xs + ys)[..|xs + ys| - 1] == xs + init;
    }
  }

  lemma NothingLinked(b: Book, itemId: string, o: Observation, p: Projection, limitations: seq<Evidence>)
    ensures LinkAll(b, itemId, DefectSightings(o, [], p, limitations)) == b
  {
  }

  lemma OneDefectMore(
    b: Book, itemId: string, o: Observation, ds: seq<Defect>, d: Defect, p: Projection, limitations: seq<Evidence>)
    ensures LinkAll(b, itemId, DefectSightings(o, ds + [d], p, limitations)) ==
            Link(LinkAll(b, itemId, DefectSightings(o, ds, p, limitations)), itemId, SightingOf(o, d, p, limitations))
  {
    hide Link, SightingOf;
    var s := DefectSightings(o, ds, p, limitations);
    assert (ds + [d])[..|ds|] == ds;
    assert (s + [SightingOf(o, d, p, limitations)])[..|s|] == s;
  }

  /** The two tables the defect loop writes. */
  class DefectRegister {
    var occurrences: seq<Occurrence>
    var ncrs: seq<Ncr>

    function Contents(): Book
      reads this
    {
      Book(occurrences, ncrs)
    }

    constructor ()
      ensures Contents() == Book([], [])
    {
      occurrences, ncrs := [], [];
    }

    /** _create_analysis */
    method CreateAnalysis(j: nat, w: Window)
      requires j < |ncrs|
      modifies this`ncrs
      ensures ncrs == old(ncrs)[j := Analysed(old(ncrs)[j], Windowed(w))]
    {
      var log := ncrs[j].log;
      var status := if w.status.Bounded? then WindowBounded else WindowLeftOpen;
      if log != [] {
        var latest := log[|log| - 1];
        if latest.status == status && latest.left == w.left && latest.right == Some(w.right) {
          return;
        }
      }
      var number := if log == [] then 1 else log[|log| - 1].number + 1;
      var reason := if log == [] then "initial_detection" else "late_event_rebuild";
      var version := Version(number, status, w.left, Some(w.right), reason, w.evidence);
      ncrs := ncrs[j := ncrs[j].(log := log + [version])];
      ncrs := ncrs[j := ncrs[j].(currentVersion := number)];
    }

    /** _create_invalidated_analysis */
    method CreateInvalidatedAnalysis(j: nat, e: Evidence)
      requires j < |ncrs| && ncrs[j].currentVersion != 0
      modifies this`ncrs
      ensures ncrs == old(ncrs)[j := Analysed(old(ncrs)[j], Withdrawn(e))]
    {
      var log := ncrs[j].log;
      if log != [] && log[|log| - 1].status.EvidenceInvalidated? {
        return;
      }
      var number := if log == [] then 1 else log[|log| - 1].number + 1;
      var version := Version(number, EvidenceInvalidated, None, None, "control_device_invalidation", [e]);
      ncrs := ncrs[j := ncrs[j].(log := log + [version])];
      ncrs := ncrs[j := ncrs[j].(currentVersion := number)];
    }

    /** One turn of the inner loop. */
    method RecordDefect(itemId: string, o: Observation, d: Defect, p: Projection, limitations: seq<Evidence>)
      modifies this
      ensures Contents() == Link(old(Contents()), itemId, SightingOf(o, d, p, limitations))
    {
      var component := Or(d.component, o.inspection.component);
      var i := OpenIndex(occurrences, itemId, d.defectType, component);
      if i == |occurrences| {
        occurrences := occurrences +
          [Occurrence(itemId, d.defectType, component, o.eventId, o.eventId, true, o.at, None)];
      } else {
        occurrences := occurrences[i := occurrences[i].(currentObservation := o.eventId)];
      }
      var j := NcrIndex(ncrs, i);
      if j == |ncrs| {
        ncrs := ncrs + [NewNcr(i, itemId, SightingOf(o, d, p, limitations))];
      }
      if o.trust.Trusted? {
        var w := CalculateBirthWindow(DefectOf(o, d), p.observations, p.runs, p.machines, p.actions, limitations);
        CreateAnalysis(j, w);
      } else if o.trust.Invalidated? && ncrs[j].currentVersion != 0 {
        CreateInvalidatedAnalysis(j, InvalidatedEvidence(o));
      }
    }

    /** The inner loop: the defects of one defect observation. */
    method RecordObservation(itemId: string, o: Observation, p: Projection, limitations: seq<Evidence>)
      modifies this
      ensures Contents() == LinkAll(old(Contents()), itemId, DefectSightings(o, o.inspection.defects, p, limitations))
    {
      hide Link, LinkAll, DefectSightings, SightingOf;
      var ds := o.inspection.defects;
      NothingLinked(Contents(), itemId, o, p, limitations);
      for m := 0 to |ds|
        invariant Contents() == LinkAll(old(Contents()), itemId, DefectSightings(o, ds[..m], p, limitations))
      {
        assert ds[..m + 1] == ds[..m] + [ds[m]];
        OneDefectMore(old(Contents()), itemId, o, ds[..m], ds[m], p, limitations);
        RecordDefect(itemId, o, ds[m], p, limitations);
      }
      assert ds[..|ds|] == ds;
    }

    /** The defect loop. */
    method RecordDefects(itemId: string, p: Projection, limitations: seq<Evidence>)
      modifies this
      ensures Contents() == LinkAll(old(Contents()), itemId, Sightings(p.observations, p, limitations))
    {
      hide Link, DefectSightings;
      var os := p.observations;
      for n := 0 to |os|
        invariant Contents() == LinkAll(old(Contents()), itemId, Sightings(os[..n], p, limitations))
      {
        var o := os[n];
        ghost var before := Sightings(os[..n], p, limitations);
        ghost var here :=
          if o.inspection.result.DefectDetected? then DefectSightings(o, o.inspection.defects, p, limitations) else [];
        assert Sightings(os[..n + 1], p, limitations) == before + here by { assert os[..n + 1][..n] == os[..n]; }
        LinkAllConcat(old(Contents()), itemId, before, here);
        if o.inspection.result.DefectDetected? {
          RecordObservation(itemId, o, p, limitations);
        }
      }
      assert os[..|os|] == os;
    }
  }
}
