/** backend/app/api/routes.py, and the revision pinning of backend/app/projections/rebuild.py (lines 318-347).
    Row ids are positions in their table. */
module Routes {
  import opened Basics
  import opened Events

  datatype Step = Step(operationId: string, controlPoint: Option<string>, required: bool)

  datatype RevisionStatus = Draft | Active | Superseded

  /** frozen stands for a set immutable_after. */
  datatype Revision = Revision(routeId: nat, number: nat, status: RevisionStatus, frozen: bool, steps: seq<Step>)

  datatype Route = Route(code: string, active: Option<nat>)

  /** An items row. */
  datatype Item = Item(product: string, revision: string, line: Option<string>, pinned: Option<nat>, registeredAt: int)

  datatype RouteDb = RouteDb(routes: seq<Route>, revisions: seq<Revision>, items: map<string, Item>)

  datatype Command =
    | CreateRoute(code: string, steps: seq<Step>)
    | CreateRevision(routeId: nat, steps: seq<Step>)
    | Activate(routeId: nat, revisionId: nat)
    | ImportRoute(code: string, steps: seq<Step>, activate: bool)
    | RegisterItem(itemId: string, registration: Registration, at: int)

  /* ---- specification of each command; a refused command changes nothing ---- */

  predicate ValidSteps(steps: seq<Step>)
  {
    && (forall i, j | 0 <= i < j < |steps| :: steps[i].operationId != steps[j].operationId)
    && (forall i, j | 0 <= i < j < |steps| ::
          Given(steps[i].controlPoint) && Given(steps[j].controlPoint) ==>
            steps[i].controlPoint != steps[j].controlPoint)
  }

  /** select(func.max(revision)).where(route_id == r) or 0 */
  function MaxNumber(revisions: seq<Revision>, r: nat): nat
  {
    if revisions == [] then 0
    else
      var rest, last := MaxNumber(revisions[..|revisions| - 1], r), revisions[|revisions| - 1];
      if last.routeId == r && last.number > rest then last.number else rest
  }

  function RouteByCode(routes: seq<Route>, code: string): (i: nat)
    ensures i <= |routes|
    ensures i < |routes| ==> routes[i].code == code
    ensures forall j | 0 <= j < i :: routes[j].code != code
  {
    if routes == [] || routes[0].code == code then 0 else 1 + RouteByCode(routes[1..], code)
  }

  function RevisionByNumber(revisions: seq<Revision>, r: nat, number: nat): (i: nat)
    ensures i <= |revisions|
    ensures i < |revisions| ==> revisions[i].routeId == r && revisions[i].number == number
    ensures forall j | 0 <= j < i :: !(revisions[j].routeId == r && revisions[j].number == number)
  {
    if revisions == [] || (revisions[0].routeId == r && revisions[0].number == number) then 0
    else 1 + RevisionByNumber(revisions[1..], r, number)
  }

  function AddRevision(db: RouteDb, r: nat, steps: seq<Step>): RouteDb
  {
    db.(revisions := db.revisions + [Revision(r, MaxNumber(db.revisions, r) + 1, Draft, false, steps)])
  }

  /** Where the database lets an update of this revision's status to active through: an immutable row may only go
      from active to superseded. */
  predicate MayActivate(db: RouteDb, r: nat, v: nat)
  {
    r < |db.routes| && v < |db.revisions| && db.revisions[v].routeId == r && !db.revisions[v].status.Superseded?
  }

  function Activated(db: RouteDb, r: nat, v: nat): RouteDb
    requires MayActivate(db, r, v)
  {
    var previous := db.routes[r].active;
    var revisions :=
      if previous.Some? && previous.value != v && previous.value < |db.revisions|
      then db.revisions[previous.value := db.revisions[previous.value].(status := Superseded)] else db.revisions;
    db.(revisions := revisions[v := revisions[v].(status := Active, frozen := true)],
        routes := db.routes[r := db.routes[r].(active := Some(v))])
  }

  function Imported(db: RouteDb, code: string, steps: seq<Step>, activate: bool): RouteDb
  {
    var r := RouteByCode(db.routes, code);
    var with := if r < |db.routes| then db else db.(routes := db.routes + [Route(code, None)]);
    var added := AddRevision(with, r, steps);
    var v := |db.revisions|;
    if activate then
      added.(revisions := added.revisions[v := added.revisions[v].(status := Active, frozen := true)],
             routes := added.routes[r := added.routes[r].(active := Some(v))])
    else added
  }

  /** The revision a newly registered item is tied to. */
  function PinFor(db: RouteDb, reg: Registration): Option<nat>
  {
    var r := RouteByCode(db.routes, if Given(reg.routeCode) then reg.routeCode.value else "ROUTE-DEFAULT");
    if r == |db.routes| then None
    else if reg.routeRevision.Some? && reg.routeRevision.value > 0 then
      var v := RevisionByNumber(db.revisions, r, reg.routeRevision.value);
      if v < |db.revisions| then Some(v) else None
    else db.routes[r].active
  }

  function Registered(db: RouteDb, itemId: string, reg: Registration, at: int): RouteDb
  {
    var item :=
      if itemId in db.items then db.items[itemId].(product := reg.product, revision := reg.revision, line := reg.line)
      else Item(reg.product, reg.revision, reg.line, PinFor(db, reg), at);
    db.(items := db.items[itemId := item])
  }

  function Execute(db: RouteDb, c: Command): RouteDb
  {
    match c
    case CreateRoute(code, steps) =>
      if RouteByCode(db.routes, code) < |db.routes| || !ValidSteps(steps) then db
      else AddRevision(db.(routes := db.routes + [Route(code, None)]), |db.routes|, steps)
    case CreateRevision(r, steps) =>
      if r < |db.routes| && ValidSteps(steps) then AddRevision(db, r, steps) else db
    case Activate(r, v) => if MayActivate(db, r, v) then Activated(db, r, v) else db
    case ImportRoute(code, steps, activate) => if ValidSteps(steps) then Imported(db, code, steps, activate) else db
    case RegisterItem(itemId, reg, at) => Registered(db, itemId, reg, at)
  }

  function ExecuteAll(db: RouteDb, cs: seq<Command>): RouteDb
  {
    if cs == [] then db else Execute(ExecuteAll(db, cs[..|cs| - 1]), cs[|cs| - 1])
  }

  const EMPTY := RouteDb([], [], map[])

  /* ---- the tables as the program changes them ---- */

  class RouteStore {
    var routes: seq<Route>
    var revisions: seq<Revision>
    var items: map<string, Item>

    function Tables(): RouteDb
      reads this
    {
      RouteDb(routes, revisions, items)
    }

    constructor ()
      ensures Tables() == EMPTY
    {
      routes, revisions, items := [], [], map[];
    }

    /** _create_revision, once validate_steps has passed: the rows are numbered by their position. */
    method InsertRevision(r: nat, steps: seq<Step>) returns (v: nat)
      modifies this`revisions
      ensures Tables() == AddRevision(old(Tables()), r, steps)
      ensures v == |old(revisions)|
    {
      var number := MaxNumber(revisions, r) + 1;
      v := |revisions|;
      revisions := revisions + [Revision(r, number, Draft, false, [])];
      for i := 0 to |steps|
        invariant revisions == old(revisions) + [Revision(r, number, Draft, false, steps[..i])]
      {
        assert steps[..i + 1] == steps[..i] + [steps[i]];
        revisions := revisions[v := revisions[v].(steps := revisions[v].steps + [steps[i]])];
      }
      assert steps[..|steps|] == steps;
    }

    /** The items row of a rebuild whose events register the item. */
    method RegisterItem(itemId: string, reg: Registration, at: int)
      modifies this`items
      ensures Tables() == Registered(old(Tables()), itemId, reg, at)
    {
      if itemId !in items {
        var pin := PinFor(Tables(), reg);
        items := items[itemId := Item(reg.product, reg.revision, reg.line, pin, at)];
      } else {
        items := items[itemId := items[itemId].(product := reg.product)];
        items := items[itemId := items[itemId].(revision := reg.revision)];
        items := items[itemId := items[itemId].(line := reg.line)];
      }
    }

    method CreateRoute(code: string, steps: seq<Step>) returns (ok: bool)
      modifies this
      ensures Tables() == Execute(old(Tables()), Command.CreateRoute(code, steps))
      ensures ok <==> Tables() != old(Tables())
    {
      ok := false;
      if RouteByCode(routes, code) == |routes| && ValidSteps(steps) {
        routes := routes + [Route(code, None)];
        var _ := InsertRevision(|routes| - 1, steps);
        ok := true;
      }
    }

    method CreateRevision(r: nat, steps: seq<Step>) returns (ok: bool)
      modifies this
      ensures Tables() == Execute(old(Tables()), Command.CreateRevision(r, steps))
      ensures ok <==> Tables() != old(Tables())
    {
      ok := r < |routes| && ValidSteps(steps);
      if ok {
        var _ := InsertRevision(r, steps);
      }
    }

    method Activate(r: nat, v: nat) returns (ok: bool)
      modifies this
      ensures Tables() == Execute(old(Tables()), Command.Activate(r, v))
      ensures ok <==> MayActivate(old(Tables()), r, v)
    {
      ok := MayActivate(Tables(), r, v);
      if ok {
        var previous := routes[r].active;
        if previous.Some? && previous.value != v && previous.value < |revisions| {
          revisions := revisions[previous.value := revisions[previous.value].(status := Superseded)];
        }
        revisions := revisions[v := revisions[v].(status := Active)];
        revisions := revisions[v := revisions[v].(frozen := true)];
        routes := routes[r := routes[r].(active := Some(v))];
      }
    }

    method ImportRoute(code: string, steps: seq<Step>, activate: bool) returns (ok: bool)
      modifies this
      ensures Tables() == Execute(old(Tables()), Command.ImportRoute(code, steps, activate))
      ensures ok <==> ValidSteps(steps)
    {
      ok := ValidSteps(steps);
      if ok {
        var r := RouteByCode(routes, code);
        if r == |routes| {
          routes := routes + [Route(code, None)];
        }
        var v := InsertRevision(r, steps);
        if activate {
          revisions := revisions[v := revisions[v].(status := Active, frozen := true)];
          routes := routes[r := routes[r].(active := Some(v))];
        }
      }
    }
  }

  /* ---- what every run keeps ---- */

  function CountOf(revisions: seq<Revision>, r: nat): nat
  {
    if revisions == [] then 0
    else CountOf(revisions[..|revisions| - 1], r) + if revisions[|revisions| - 1].routeId == r then 1 else 0
  }

  /** Each revision carries the number of revisions its route had, plus one. */
  ghost predicate Numbered(revisions: seq<Revision>)
  {
    revisions == [] ||
    var init, last := revisions[..|revisions| - 1], revisions[|revisions| - 1];
    Numbered(init) && last.number == CountOf(init, last.routeId) + 1
  }

  ghost predicate Consistent(db: RouteDb)
  {
    && Numbered(db.revisions)
    && (forall v | 0 <= v < |db.revisions| ::
          && db.revisions[v].routeId < |db.routes|
          && (db.revisions[v].status.Active? ==> db.routes[db.revisions[v].routeId].active.Some?))
    && (forall r | 0 <= r < |db.routes| && db.routes[r].active.Some? ::
          var v := db.routes[r].active.value;
          v < |db.revisions| && db.revisions[v].routeId == r && db.revisions[v].status.Active?)
    && (forall i | i in db.items && db.items[i].pinned.Some? :: db.items[i].pinned.value < |db.revisions|)
  }

  lemma {:induction false} MaxIsCount(revisions: seq<Revision>, r: nat)
    requires Numbered(revisions)
    ensures MaxNumber(revisions, r) == CountOf(revisions, r)
  {
    if revisions != [] {
      MaxIsCount(revisions[..|revisions| - 1], r);
    }
  }

  /** Only status and the immutability mark of a revision ever change. */
  predicate SameContent(a: Revision, b: Revision)
  {
    a.(status := b.status, frozen := b.frozen) == b
  }

  lemma {:induction false} NumberedByContent(a: seq<Revision>, b: seq<Revision>)
    requires |a| == |b| && forall i | 0 <= i < |a| :: SameContent(a[i], b[i])
    ensures Numbered(a) <==> Numbered(b)
    ensures forall r :: CountOf(a, r) == CountOf(b, r)
  {
    if a != [] {
      NumberedByContent(a[..|a| - 1], b[..|b| - 1]);
      assert SameContent(a[|a| - 1], b[|b| - 1]);
    }
  }

  lemma AddRevisionConsistent(db: RouteDb, r: nat, steps: seq<Step>)
    requires Consistent(db) && r < |db.routes|
    ensures Consistent(AddRevision(db, r, steps))
  {
    MaxIsCount(db.revisions, r);
    var after := AddRevision(db, r, steps).revisions;
    assert after[..|after| - 1] == db.revisions;
  }

  lemma ActivateConsistent(db: RouteDb, r: nat, v: nat)
    requires Consistent(db) && MayActivate(db, r, v)
    ensures Consistent(Activated(db, r, v))
  {
    NumberedByContent(db.revisions, Activated(db, r, v).revisions);
  }

  lemma ImportConsistent(db: RouteDb, code: string, steps: seq<Step>, activate: bool)
    requires Consistent(db)
    ensures Consistent(Imported(db, code, steps, activate))
  {
    hide MaxNumber, Numbered, CountOf;
    var r := RouteByCode(db.routes, code);
    var with := if r < |db.routes| then db else db.(routes := db.routes + [Route(code, None)]);
    AddRevisionConsistent(with, r, steps);
    var added := AddRevision(with, r, steps);
    NumberedByContent(added.revisions, Imported(db, code, steps, activate).revisions);
  }

  lemma NewRouteConsistent(db: RouteDb, code: string)
    requires Consistent(db)
    ensures Consistent(db.(routes := db.routes + [Route(code, None)]))
  {
    hide Numbered;
  }

  lemma RegisteredConsistent(db: RouteDb, itemId: string, reg: Registration, at: int)
    requires Consistent(db)
    ensures Consistent(Registered(db, itemId, reg, at))
  {
    hide Numbered;
  }

  lemma StepConsistent(db: RouteDb, c: Command)
    requires Consistent(db)
    ensures Consistent(Execute(db, c))
  {
    hide Numbered, MaxNumber, CountOf, Activated, Imported, AddRevision, Registered, RouteByCode, ValidSteps;
    match c
    case CreateRoute(code, steps) =>
      if RouteByCode(db.routes, code) == |db.routes| && ValidSteps(steps) {
        NewRouteConsistent(db, code);
        AddRevisionConsistent(db.(routes := db.routes + [Route(code, None)]), |db.routes|, steps);
      }
    case CreateRevision(r, steps) => if r < |db.routes| { AddRevisionConsistent(db, r, steps); }
    case Activate(r, v) => if MayActivate(db, r, v) { ActivateConsistent(db, r, v); }
    case ImportRoute(code, steps, activate) => ImportConsistent(db, code, steps, activate);
    case RegisterItem(itemId, reg, at) => RegisteredConsistent(db, itemId, reg, at);
  }

  /** Over every run: numbers, active revisions and pins are consistent. */
  lemma {:induction false} RunsConsistent(cs: seq<Command>)
    ensures Consistent(ExecuteAll(EMPTY, cs))
  {
    if cs != [] {
      RunsConsistent(cs[..|cs| - 1]);
      StepConsistent(ExecuteAll(EMPTY, cs[..|cs| - 1]), cs[|cs| - 1]);
    }
  }

  /** A route's revisions are numbered 1..n: every number up to n is used, and used once. */
  lemma {:induction false} NumbersAreOneToN(revisions: seq<Revision>, r: nat, k: nat)
    requires Numbered(revisions)
    ensures (exists v :: 0 <= v < |revisions| && revisions[v].routeId == r && revisions[v].number == k) <==>
            1 <= k <= CountOf(revisions, r)
    ensures forall u, v | 0 <= u < v < |revisions| && revisions[u].routeId == revisions[v].routeId == r ::
              revisions[u].number < revisions[v].number
  {
    if revisions != [] {
      var n := |revisions| - 1;
      var init := revisions[..n];
      NumbersAreOneToN(init, r, k);
      if revisions[n].routeId == r {
        forall u | 0 <= u < n && revisions[u].routeId == r ensures revisions[u].number < revisions[n].number {
          NumbersAreOneToN(init, r, revisions[u].number);
          assert init[u].routeId == r;
        }
      }
      if 1 <= k <= CountOf(revisions, r) {
        if k == CountOf(revisions, r) && revisions[n].routeId == r {
          assert revisions[n].number == k;
        } else {
          var v :| 0 <= v < n && init[v].routeId == r && init[v].number == k;
          assert revisions[v].routeId == r;
        }
      }
      if v :| 0 <= v <= n && revisions[v].routeId == r && revisions[v].number == k {
        if v < n { assert init[v].routeId == r; }
      }
    }
  }

  /** How far a revision has come; the database never lets it go back. */
  function Stage(s: RevisionStatus): nat
  {
    match s case Draft => 0 case Active => 1 case Superseded => 2
  }

  /** later is a possible future of db: rows are kept, contents frozen, stages and pins never revert. */
  ghost predicate Continues(db: RouteDb, later: RouteDb)
  {
    && |db.revisions| <= |later.revisions| && |db.routes| <= |later.routes|
    && (forall v | 0 <= v < |db.revisions| ::
          SameContent(db.revisions[v], later.revisions[v]) &&
            Stage(db.revisions[v].status) <= Stage(later.revisions[v].status))
    && (forall i | i in db.items ::
          i in later.items && later.items[i].pinned == db.items[i].pinned &&
            later.items[i].registeredAt == db.items[i].registeredAt)
  }

  lemma StepContinues(db: RouteDb, c: Command)
    requires Consistent(db)
    ensures Continues(db, Execute(db, c))
  {
    hide ValidSteps, RouteByCode, RevisionByNumber, MaxNumber, PinFor;
  }

  lemma ContinuesItself(db: RouteDb)
    ensures Continues(db, db)
  {
  }

  lemma ContinuesTransitive(a: RouteDb, b: RouteDb, c: RouteDb)
    requires Continues(a, b) && Continues(b, c)
    ensures Continues(a, c)
  {
    forall v | 0 <= v < |a.revisions|
      ensures SameContent(a.revisions[v], c.revisions[v]) &&
              Stage(a.revisions[v].status) <= Stage(c.revisions[v].status)
    {
      assert SameContent(a.revisions[v], b.revisions[v]) && SameContent(b.revisions[v], c.revisions[v]);
    }
  }

  lemma ExtendRun(a: RouteDb, m: RouteDb, c: Command)
    requires Continues(a, m) && Consistent(m)
    ensures Continues(a, Execute(m, c))
  {
    hide Continues, Execute, Consistent;
    StepContinues(m, c);
    ContinuesTransitive(a, m, Execute(m, c));
  }

  lemma ExecuteSnoc(db: RouteDb, cs: seq<Command>, c: Command)
    ensures ExecuteAll(db, cs + [c]) == Execute(ExecuteAll(db, cs), c)
  {
    assert (cs + [c])[..|cs|] == cs;
  }

  /** Pinning: whatever happens after a moment of a run, an item keeps the revision it got when its row was created,
      even when it got none. */
  lemma {:induction false} PinsNeverChange(before: seq<Command>, after: seq<Command>)
    ensures Continues(ExecuteAll(EMPTY, before), ExecuteAll(EMPTY, before + after))
  {
    hide Execute, Continues, Consistent;
    var start := ExecuteAll(EMPTY, before);
    if after == [] {
      ContinuesItself(start);
      assert before + after == before;
    } else {
      var init, c := after[..|after| - 1], after[|after| - 1];
      PinsNeverChange(before, init);
      RunsConsistent(before + init);
      ExtendRun(start, ExecuteAll(EMPTY, before + init), c);
      ExecuteSnoc(EMPTY, before + init, c);
      assert before + after == before + init + [c];
    }
  }

  /** A pin names a revision of the very route the registration asked for. */
  lemma PinBelongsToRoute(db: RouteDb, reg: Registration)
    requires Consistent(db) && PinFor(db, reg).Some?
    ensures var v := PinFor(db, reg).value;
            && v < |db.revisions| && db.revisions[v].routeId < |db.routes|
            && db.routes[db.revisions[v].routeId].code ==
              (if Given(reg.routeCode) then reg.routeCode.value else "ROUTE-DEFAULT")
            && (reg.routeRevision.Some? && reg.routeRevision.value > 0 ==>
              db.revisions[v].number == reg.routeRevision.value)
            && (!(reg.routeRevision.Some? && reg.routeRevision.value > 0) ==> db.revisions[v].status.Active?)
  {
  }

  /* ---- "at most one active revision" is not kept by import ---- */

  ghost predicate SingleActive(db: RouteDb, r: nat)
  {
    forall u, v | 0 <= u < v < |db.revisions| && db.revisions[u].routeId == db.revisions[v].routeId == r ::
      !(db.revisions[u].status.Active? && db.revisions[v].status.Active?)
  }

  /** Activation keeps it on every route. */
  lemma ActivateKeepsSingleActive(db: RouteDb, r: nat, v: nat, q: nat)
    requires Consistent(db) && MayActivate(db, r, v) && SingleActive(db, q)
    ensures SingleActive(Activated(db, r, v), q)
  {
    if q == r && db.routes[r].active.Some? {
      var previous := db.routes[r].active.value;
      assert forall u | 0 <= u < |db.revisions| && u != previous && db.revisions[u].routeId == r ::
          !db.revisions[u].status.Active?;
    }
  }

  /** An activating import keeps it exactly when the route had no active revision yet. */
  lemma ImportKeepsSingleActiveIff(db: RouteDb, code: string, steps: seq<Step>)
    requires Consistent(db)
    requires SingleActive(db, RouteByCode(db.routes, code))
    ensures var r := RouteByCode(db.routes, code);
            SingleActive(Imported(db, code, steps, true), r) <==> r == |db.routes| || db.routes[r].active.None?
  {
    var r := RouteByCode(db.routes, code);
    var after := Imported(db, code, steps, true);
    var n := |db.revisions|;
    assert after.revisions[n].routeId == r && after.revisions[n].status.Active?;
    assert forall u | 0 <= u < n :: after.revisions[u] == db.revisions[u];
    if r < |db.routes| && db.routes[r].active.Some? {
      var u := db.routes[r].active.value;
      assert after.revisions[u].routeId == after.revisions[n].routeId == r;
    }
  }

  lemma FirstImport(code: string, steps: seq<Step>)
    ensures var one := Imported(EMPTY, code, steps, true);
            && Consistent(one) && SingleActive(one, 0)
            && RouteByCode(one.routes, code) == 0 && |one.routes| == 1 && one.routes[0].active.Some?
  {
    hide Consistent, MaxNumber;
    assert Consistent(EMPTY) by { RunsConsistent([]); }
    ImportConsistent(EMPTY, code, steps, true);
  }

  /** Two imports of the same route code leave two active revisions. */
  lemma TwoActiveRevisions()
    ensures var s := [Step("OP-1", None, false)];
            !SingleActive(ExecuteAll(EMPTY, [Command.ImportRoute("R", s, true), Command.ImportRoute("R", s, true)]), 0)
  {
    hide Consistent, SingleActive, Imported, RouteByCode, ExecuteAll;
    var s := [Step("OP-1", None, false)];
    var c := Command.ImportRoute("R", s, true);
    assert ValidSteps(s);
    FirstImport("R", s);
    ImportKeepsSingleActiveIff(Imported(EMPTY, "R", s, true), "R", s);
    NothingExecuted(EMPTY);
    assert [] + [c] == [c] && [c] + [c] == [c, c];
    ExecuteSnoc(EMPTY, [], c);
    ExecuteSnoc(EMPTY, [c], c);
  }

  lemma NothingExecuted(db: RouteDb)
    ensures ExecuteAll(db, []) == db
  {
  }
}
