/**
  The writes on ladders: which faculties are pinned to a structure, and which
  rungs a structure has. Rungs are matched by their order and never deleted.
 */
module LadderEdits {
  import opened Options
  import opened LadderModel
  import opened LadderTheorems

  // ---------------------------------------------------------------------------
  // Pins
  // ---------------------------------------------------------------------------

  /** The wanted faculties point here, this structure's others are released, the rest is as it was. */
  function Repinned(pins: map<Id, Id>, s: Id, wanted: set<Id>): map<Id, Id> {
    map f | f in pins.Keys + wanted && (f in wanted || pins[f] != s) :: if f in wanted then s else pins[f]
  }

  predicate Live(units: map<Id, Unit>, id: Id) {
    id in units && !units[id].deleted
  }

  /** A pinned faculty resolves to its active structure, and so do its departments without a ladder of their own. */
  lemma PinTakesEffect(t: Tables, s: Structure, wanted: set<Id>, scope: Scope)
    requires Ordered(t.structures) && s in t.structures && s.active && OwnerCount(scope) <= 1
    requires PinFaculty(t, scope) in wanted && PinFaculty(t, scope) != NONE
    requires scope.department != NONE ==> FindKey(t.structures, Department(scope.department)).None?
    ensures Resolve(t.(pins := Repinned(t.pins, s.id, wanted)), scope) == Ok(Some(s))
  {
    FindIdIs(t.structures, s.id);
  }

  /** Everyone who was neither pinned here nor is now resolves as before; who is released resolves as if never pinned. */
  lemma PinsElsewhereStay(t: Tables, s: Id, wanted: set<Id>, scope: Scope)
    requires PinFaculty(t, scope) !in wanted
    ensures Resolve(t.(pins := Repinned(t.pins, s, wanted)), scope)
            == if PinFaculty(t, scope) in t.pins && t.pins[PinFaculty(t, scope)] == s
               then Resolve(t.(pins := t.pins - {PinFaculty(t, scope)}), scope)
               else Resolve(t, scope)
  {
  }

  // ---------------------------------------------------------------------------
  // Rungs
  // ---------------------------------------------------------------------------

  datatype Entry = Entry(order: int, name: string)

  /** One rung per structure and order. */
  ghost predicate Indexed(rungs: map<Id, Rung>) {
    forall a, b ::
      a in rungs && b in rungs && rungs[a].structure == rungs[b].structure && rungs[a].order == rungs[b].order
      ==> a == b
  }

  predicate Listed(entries: seq<Entry>, order: int) {
    exists i :: 0 <= i < |entries| && entries[i].order == order
  }

  predicate Named(entries: seq<Entry>, order: int, name: string) {
    exists i :: 0 <= i < |entries| && entries[i] == Entry(order, name)
  }

  ghost predicate HasRung(rungs: map<Id, Rung>, s: Id, order: int) {
    exists id :: id in rungs && rungs[id].structure == s && rungs[id].order == order
  }

  /** Every rung keeps its id, structure and order; exactly the submitted orders are active, under the submitted names. */
  ghost predicate Replaced(before: map<Id, Rung>, after: map<Id, Rung>, s: Id, entries: seq<Entry>) {
    && Indexed(after)
    && (forall id :: id in before ==>
          id in after && after[id].structure == before[id].structure && after[id].order == before[id].order)
    && (forall id :: id in after && after[id].structure != s ==> id in before && after[id] == before[id])
    && (forall id :: id in after && after[id].structure == s ==>
          && (after[id].active <==> Listed(entries, after[id].order))
          && (if after[id].active then Named(entries, after[id].order, after[id].name)
              else id in before && after[id].name == before[id].name))
    && (forall i :: 0 <= i < |entries| ==> HasRung(after, s, entries[i].order))
  }

  /** The same, except that of the rungs not submitted only those to retire are deactivated. */
  ghost predicate ReplacedSparing(before: map<Id, Rung>, after: map<Id, Rung>, s: Id, entries: seq<Entry>, retire: set<Id>) {
    && Indexed(after)
    && (forall id :: id in before ==>
          id in after && after[id].structure == before[id].structure && after[id].order == before[id].order)
    && (forall id :: id in after && after[id].structure != s ==> id in before && after[id] == before[id])
    && (forall id :: id in after && after[id].structure == s ==>
          if Listed(entries, after[id].order)
          then after[id].active && Named(entries, after[id].order, after[id].name)
          else id in before && after[id].name == before[id].name
               && after[id].active == (before[id].active && id !in retire))
    && (forall i :: 0 <= i < |entries| ==> HasRung(after, s, entries[i].order))
  }

  /** Nothing is deleted and nothing changes its place. */
  ghost predicate Evolved(before: map<Id, Rung>, after: map<Id, Rung>) {
    forall id :: id in before ==>
      id in after && after[id].structure == before[id].structure && after[id].order == before[id].order
  }

  /** What the read selects for retirement. */
  function Unlisted(rungs: map<Id, Rung>, s: Id, entries: seq<Entry>): set<Id> {
    set id | id in rungs && rungs[id].structure == s && !Listed(entries, rungs[id].order)
  }

  ghost predicate NotListed(rungs: map<Id, Rung>, s: Id, entries: seq<Entry>, retire: set<Id>) {
    forall id :: id in retire ==> id in rungs && rungs[id].structure == s && !Listed(entries, rungs[id].order)
  }

  /** Every active rung of this structure that was not submitted was there at the read. */
  ghost predicate NoneSlippedIn(read: map<Id, Rung>, before: map<Id, Rung>, s: Id, entries: seq<Entry>) {
    forall id :: id in before && before[id].structure == s && before[id].active && !Listed(entries, before[id].order)
      ==> id in read
  }

  lemma ReplacedIff(read: map<Id, Rung>, before: map<Id, Rung>, after: map<Id, Rung>, s: Id, entries: seq<Entry>)
    requires Evolved(read, before) && ReplacedSparing(before, after, s, entries, Unlisted(read, s, entries))
    ensures Replaced(before, after, s, entries) <==> NoneSlippedIn(read, before, s, entries)
  {
    hide Listed, Named, Indexed, HasRung;
  }

  ghost predicate DistinctOrders(entries: seq<Entry>) {
    forall i, j :: 0 <= i < j < |entries| ==> entries[i].order != entries[j].order
  }

  /**
    Replacing a ladder's entries and putting the old ones back gives back the old
    rungs: the same ids with the same contents are active, and nothing else is.
   */
  lemma ReplaceThenRestore(r0: map<Id, Rung>, r1: map<Id, Rung>, r2: map<Id, Rung>, r3: map<Id, Rung>,
                           s: Id, a: seq<Entry>, b: seq<Entry>, id: Id)
    requires DistinctOrders(a) && Replaced(r0, r1, s, a) && Replaced(r1, r2, s, b) && Replaced(r2, r3, s, a)
    requires id in r3 && r3[id].structure == s
    ensures r3[id].active <==> id in r1 && r1[id].active
    ensures r3[id].active ==> r3[id] == r1[id]
  {
  }

  /** Rungs in use stay accepted; where active ones are required, exactly those whose order was submitted. */
  lemma ReplacingKeepsPlacements(t: Tables, after: map<Id, Rung>, s: Id, entries: seq<Entry>, rung: Id, scope: Scope)
    requires Replaced(t.rungs, after, s, entries) && rung in t.rungs && t.rungs[rung].structure == s
    ensures InLadder(t, rung, scope, false) <==> InLadder(t.(rungs := after), rung, scope, false)
    ensures InLadder(t.(rungs := after), rung, scope, true) <==>
            InLadder(t, rung, scope, false) && Listed(entries, t.rungs[rung].order)
  {
  }

  // ---------------------------------------------------------------------------
  // The service
  // ---------------------------------------------------------------------------

  datatype EditError = NotFound | UnknownFaculty | SharedOrder | BadOrder

  datatype Field = UniversityField | FacultyField | DepartmentsField

  datatype Problem = Missing | NotFoundOrDeleted | Inactive | WrongParent | MixedStudyTypes

  datatype PlacementRules = PlacementRules(requireActive: bool, requireBoth: bool)

  predicate UniversityRight(t: Tables, p: Placement, rules: PlacementRules) {
    if p.university == NONE then !rules.requireBoth
    else rules.requireActive ==> Live(t.universities, p.university) && t.universities[p.university].active
  }

  predicate FacultyRight(t: Tables, p: Placement, rules: PlacementRules) {
    if p.faculty == NONE then !rules.requireBoth
    else
      && Live(t.faculties, p.faculty)
      && (p.university != NONE ==> t.faculties[p.faculty].parent == p.university)
      && (rules.requireActive ==> t.faculties[p.faculty].active)
  }

  /** All under the chosen college, and all of one study type. */
  predicate DepartmentsRight(t: Tables, p: Placement, rules: PlacementRules) {
    && (p.departments != [] ==> p.faculty != NONE)
    && (forall d :: d in p.departments ==>
          Live(t.departments, d) && t.departments[d].parent == p.faculty
          && (rules.requireActive ==> t.departments[d].active))
    && (forall d, e :: d in p.departments && e in p.departments && d in t.departments && e in t.departments ==>
          t.departments[d].studyType == t.departments[e].studyType)
  }

  predicate AllLive(departments: map<Id, Unit>, ids: seq<Id>) {
    forall d :: d in ids ==> Live(departments, d)
  }

  predicate AllUnder(departments: map<Id, Unit>, ids: seq<Id>, faculty: Id) {
    AllLive(departments, ids) && forall d :: d in ids && d in departments ==> departments[d].parent == faculty
  }

  class CatalogService {
    var structures: seq<Structure>
    var pins: map<Id, Id>
    var universities: map<Id, Unit>
    var faculties: map<Id, Unit>
    var departments: map<Id, Unit>
    var rungs: map<Id, Rung>

    constructor (t: Tables)
      ensures Abs() == t
    {
      structures, pins, rungs := t.structures, t.pins, t.rungs;
      universities, faculties, departments := t.universities, t.faculties, t.departments;
    }

    function Abs(): Tables
      reads this
    {
      Tables(structures, pins, universities, faculties, departments, rungs)
    }

    /** Candidates from the nearest unit up, then the department's own, the pin, and the first that is found. */
    method ResolveAcademicStructure(scope: Scope) returns (answer: Result<Option<Structure>, Error>)
      ensures answer == Resolve(Abs(), scope)
    {
      if OwnerCount(scope) > 1 {
        return Err(TooManyOwners);
      }
      var candidates: seq<ScopeKey> := [];
      var override := NONE;
      if scope.department != NONE {
        candidates := candidates + [Department(scope.department)];
        if scope.department in departments {
          override := departments[scope.department].parent;
          candidates := candidates + [Faculty(override)];
          if override in faculties {
            candidates := candidates + [University(faculties[override].parent)];
          }
        }
      } else if scope.faculty != NONE {
        override := scope.faculty;
        candidates := candidates + [Faculty(scope.faculty)];
        if scope.faculty in faculties {
          candidates := candidates + [University(faculties[scope.faculty].parent)];
        }
      } else if scope.university != NONE {
        candidates := candidates + [University(scope.university)];
      }
      candidates := candidates + [Platform];
      assert candidates == Candidates(Abs(), scope) && override == PinFaculty(Abs(), scope);
      if scope.department != NONE {
        var own := FindKey(structures, Department(scope.department));
        if own.Some? {
          return Ok(own);
        }
      }
      var pinned := Pinned(Abs(), override);
      if pinned.Some? {
        return Ok(pinned);
      }
      for i := 0 to |candidates|
        invariant FirstHit(structures, candidates) == FirstHit(structures, candidates[i..])
      {
        var hit := FindKey(structures, candidates[i]);
        if hit.Some? {
          return Ok(hit);
        }
      }
      return Ok(None);
    }

    /** Every id must name a live faculty; empty ids are dropped. */
    method SetStructureFacultyOverrides(s: Id, facultyIds: seq<Id>) returns (answer: Result<set<Id>, EditError>)
      modifies this`pins
      ensures answer == Err(NotFound) <==> FindId(structures, s).None?
      ensures answer.Ok? <==>
              FindId(structures, s).Some? && forall f :: f in facultyIds && f != NONE ==> Live(faculties, f)
      ensures answer.Ok? ==> (forall f :: f in answer.value <==> f in facultyIds && f != NONE)
                             && pins == Repinned(old(pins), s, answer.value)
      ensures answer.Err? ==> pins == old(pins)
    {
      if FindId(structures, s).None? {
        return Err(NotFound);
      }
      var wanted := set f | f in facultyIds && f != NONE;
      if exists f :: f in wanted && !Live(faculties, f) {
        return Err(UnknownFaculty);
      }
      Repin(s, wanted);
      return Ok(wanted);
    }

    /** Three statements in one transaction: release what is no longer wanted, take over, pin. */
    method Repin(s: Id, wanted: set<Id>)
      modifies this`pins
      ensures pins == Repinned(old(pins), s, wanted)
    {
      pins := map f | f in pins && !(pins[f] == s && f !in wanted) :: pins[f];
      pins := map f | f in pins && f !in wanted :: pins[f];
      pins := pins + map f | f in wanted :: s;
    }

    /** `UPSERT` on (structure, order). */
    method Upsert(s: Id, e: Entry, newId: Id) returns (id: Id)
      requires Indexed(rungs) && newId !in rungs
      modifies this`rungs
      ensures rungs == old(rungs)[id := Rung(s, e.order, e.name, true)]
      ensures if HasRung(old(rungs), s, e.order)
              then id in old(rungs) && old(rungs)[id].structure == s && old(rungs)[id].order == e.order
              else id == newId
      ensures Indexed(rungs)
    {
      var same := set r | r in rungs && rungs[r].structure == s && rungs[r].order == e.order;
      assert HasRung(rungs, s, e.order) ==> exists r :: r in same by {
        if HasRung(rungs, s, e.order) {
          var r :| r in rungs && rungs[r].structure == s && rungs[r].order == e.order;
          assert r in same;
        }
      }
      if r :| r in same {
        id := r;
      } else {
        id := newId;
      }
      rungs := rungs[id := Rung(s, e.order, e.name, true)];
    }

    /**
      The rungs are read, others may replace entries meanwhile (`others` is what
      they make of the table), and one transaction writes. Exactly the submitted
      orders are active afterwards if and only if no other rung of this structure
      came in between the read and the transaction.
     */
    method ReplaceStructureEntries(s: Id, entries: seq<Entry>, newIds: seq<Id>, others: map<Id, Rung>)
      returns (error: Option<EditError>)
      requires Evolved(rungs, others) && Indexed(others)
      requires |newIds| == |entries| && (forall i :: 0 <= i < |newIds| ==> newIds[i] !in others)
      requires forall i, j :: 0 <= i < j < |newIds| ==> newIds[i] != newIds[j]
      modifies this`rungs
      ensures error == Some(NotFound) <==> FindId(structures, s).None?
      ensures error == Some(SharedOrder) <==> FindId(structures, s).Some? && !DistinctOrders(entries)
      ensures error.None? <==> FindId(structures, s).Some? && DistinctOrders(entries)
                               && forall i :: 0 <= i < |entries| ==> entries[i].order >= 1
      ensures error.Some? ==> rungs == old(rungs)
      ensures error.None? ==>
                && ReplacedSparing(others, rungs, s, entries, Unlisted(old(rungs), s, entries))
                && (Replaced(others, rungs, s, entries) <==> NoneSlippedIn(old(rungs), others, s, entries))
    {
      if FindId(structures, s).None? {
        return Some(NotFound);
      }
      if exists i, j :: 0 <= i < j < |entries| && entries[i].order == entries[j].order {
        return Some(SharedOrder);
      }
      if exists i :: 0 <= i < |entries| && entries[i].order < 1 {
        return Some(BadOrder);
      }
      var retire := Unlisted(rungs, s, entries);
      rungs := others;
      WriteEntries(s, entries, newIds, retire);
      ReplacedIff(old(rungs), others, rungs, s, entries);
      return None;
    }

    /** The transaction: every submitted entry, and then the rungs to retire. */
    method WriteEntries(s: Id, entries: seq<Entry>, newIds: seq<Id>, retire: set<Id>)
      requires Indexed(rungs) && DistinctOrders(entries)
      requires |newIds| == |entries| && (forall i :: 0 <= i < |newIds| ==> newIds[i] !in rungs)
      requires forall i, j :: 0 <= i < j < |newIds| ==> newIds[i] != newIds[j]
      requires NotListed(rungs, s, entries, retire)
      modifies this`rungs
      ensures ReplacedSparing(old(rungs), rungs, s, entries, retire)
    {
      hide *;
      NothingUpserted(rungs, s, entries);
      for i := 0 to |entries|
        invariant Upserted(old(rungs), rungs, s, entries, i) && Indexed(rungs)
        invariant forall j :: i <= j < |newIds| ==> newIds[j] !in rungs
      {
        ghost var before := rungs;
        var id := Upsert(s, entries[i], newIds[i]);
        OneMore(old(rungs), before, rungs, s, entries, i, id, newIds[i]);
      }
      ghost var upserted := rungs;
      rungs := map id | id in rungs :: if id in retire then rungs[id].(active := false) else rungs[id];
      RetireRest(old(rungs), upserted, rungs, s, entries, retire);
    }

    /** Collects every field that is wrong. */
    method CheckAcademicStructure(p: Placement, rules: PlacementRules) returns (fields: map<Field, Problem>)
      ensures UniversityField in fields <==> !UniversityRight(Abs(), p, rules)
      ensures FacultyField in fields <==> !FacultyRight(Abs(), p, rules)
      ensures DepartmentsField in fields <==> !DepartmentsRight(Abs(), p, rules)
    {
      hide DepartmentsRight;
      fields := map[];
      if rules.requireBoth {
        if p.university == NONE { fields := fields[UniversityField := Missing]; }
        if p.faculty == NONE { fields := fields[FacultyField := Missing]; }
      }
      if rules.requireActive && p.university != NONE {
        if !Live(universities, p.university) {
          fields := fields[UniversityField := NotFoundOrDeleted];
        } else if !universities[p.university].active {
          fields := fields[UniversityField := Inactive];
        }
      }
      if p.faculty != NONE {
        if !Live(faculties, p.faculty) {
          fields := fields[FacultyField := NotFoundOrDeleted];
        } else if p.university != NONE && faculties[p.faculty].parent != p.university {
          fields := fields[FacultyField := WrongParent];
        } else if rules.requireActive && !faculties[p.faculty].active {
          fields := fields[FacultyField := Inactive];
        }
      }
      var wrong := CheckDepartments(p, rules);
      if wrong.Some? { fields := fields[DepartmentsField := wrong.value]; }
    }

    method CheckDepartments(p: Placement, rules: PlacementRules) returns (wrong: Option<Problem>)
      ensures wrong.None? <==> DepartmentsRight(Abs(), p, rules)
      ensures wrong == Some(Missing) <==> p.departments != [] && p.faculty == NONE
      ensures wrong == Some(NotFoundOrDeleted) <==> p.faculty != NONE && exists d :: d in p.departments && !Live(departments, d)
      ensures wrong == Some(WrongParent) <==>
                p.faculty != NONE && AllLive(departments, p.departments)
                && exists d :: d in p.departments && d in departments && departments[d].parent != p.faculty
      ensures wrong == Some(Inactive) <==>
                p.faculty != NONE && AllUnder(departments, p.departments, p.faculty) && rules.requireActive
                && exists d :: d in p.departments && d in departments && !departments[d].active
      ensures wrong == Some(MixedStudyTypes) <==>
                p.faculty != NONE && AllUnder(departments, p.departments, p.faculty)
                && (rules.requireActive ==> forall d :: d in p.departments && d in departments ==> departments[d].active)
                && exists d, e :: d in p.departments && e in p.departments && d in departments && e in departments
                                  && departments[d].studyType != departments[e].studyType
    {
      wrong := None;
      if p.departments != [] {
        if p.faculty == NONE {
          return Some(Missing);
        }
        var found := set d | d in p.departments && Live(departments, d);
        if exists d, e :: d in found && e in found && departments[d].studyType != departments[e].studyType {
          wrong := Some(MixedStudyTypes);
        }
        if exists d :: d in p.departments && d !in found {
          wrong := Some(NotFoundOrDeleted);
        } else if exists d :: d in found && departments[d].parent != p.faculty {
          wrong := Some(WrongParent);
        } else if rules.requireActive && exists d :: d in found && !departments[d].active {
          wrong := Some(Inactive);
        }
      }
    }
  }

  // ---------------------------------------------------------------------------
  // The upserts so far
  // ---------------------------------------------------------------------------

  predicate ListedTo(entries: seq<Entry>, n: nat, order: int) {
    exists i :: 0 <= i < n && i < |entries| && entries[i].order == order
  }

  predicate NamedTo(entries: seq<Entry>, n: nat, order: int, name: string) {
    exists i :: 0 <= i < n && i < |entries| && entries[i] == Entry(order, name)
  }

  ghost predicate Says(before: map<Id, Rung>, now: map<Id, Rung>, s: Id, entries: seq<Entry>, n: nat, id: Id) {
    && (id in before ==>
          id in now && now[id].structure == before[id].structure && now[id].order == before[id].order)
    && (id in now ==>
          if now[id].structure == s && ListedTo(entries, n, now[id].order)
          then now[id].active && NamedTo(entries, n, now[id].order, now[id].name)
          else id in before && now[id] == before[id])
  }

  ghost predicate Upserted(before: map<Id, Rung>, now: map<Id, Rung>, s: Id, entries: seq<Entry>, n: nat) {
    && (forall id :: id in before || id in now ==> Says(before, now, s, entries, n, id))
    && (forall i :: 0 <= i < n && i < |entries| ==> HasRung(now, s, entries[i].order))
  }

  lemma NothingUpserted(rungs: map<Id, Rung>, s: Id, entries: seq<Entry>)
    ensures Upserted(rungs, rungs, s, entries, 0)
  {
  }

  lemma OneMore(before: map<Id, Rung>, now: map<Id, Rung>, next: map<Id, Rung>, s: Id, entries: seq<Entry>, n: nat, id: Id, newId: Id)
    requires n < |entries| && Upserted(before, now, s, entries, n) && newId !in now && Indexed(now)
    requires next == now[id := Rung(s, entries[n].order, entries[n].name, true)]
    requires if HasRung(now, s, entries[n].order)
             then id in now && now[id].structure == s && now[id].order == entries[n].order
             else id == newId
    ensures Upserted(before, next, s, entries, n + 1)
  {
    hide Says, HasRung, Indexed;
    forall r | r in before || r in next ensures Says(before, next, s, entries, n + 1, r) {
      assert Says(before, now, s, entries, n, r) by { SaysOfKnown(before, now, s, entries, n, r); }
      OneMoreRung(before, now, next, s, entries, n, id, newId, r);
    }
    forall i | 0 <= i < n + 1 && i < |entries| ensures HasRung(next, s, entries[i].order) {
      if i < n { RungStays(now, next, s, entries[i].order, id, entries[n]); } else { RungIsThere(next, s, entries[n], id); }
    }
  }

  lemma SaysOfKnown(before: map<Id, Rung>, now: map<Id, Rung>, s: Id, entries: seq<Entry>, n: nat, r: Id)
    requires Upserted(before, now, s, entries, n)
    ensures Says(before, now, s, entries, n, r)
  {
  }

  lemma RungIsThere(next: map<Id, Rung>, s: Id, e: Entry, id: Id)
    requires id in next && next[id] == Rung(s, e.order, e.name, true)
    ensures HasRung(next, s, e.order)
  {
  }

  lemma RungStays(now: map<Id, Rung>, next: map<Id, Rung>, s: Id, order: int, id: Id, e: Entry)
    requires HasRung(now, s, order) && next == now[id := Rung(s, e.order, e.name, true)]
    requires id in now ==> now[id].structure == s && now[id].order == e.order
    ensures HasRung(next, s, order)
  {
    var r :| r in now && now[r].structure == s && now[r].order == order;
    assert r in next && next[r].structure == s && next[r].order == order;
  }

  lemma OneMoreRung(before: map<Id, Rung>, now: map<Id, Rung>, next: map<Id, Rung>, s: Id, entries: seq<Entry>, n: nat,
                    id: Id, newId: Id, r: Id)
    requires n < |entries| && Says(before, now, s, entries, n, r) && newId !in now && Indexed(now)
    requires next == now[id := Rung(s, entries[n].order, entries[n].name, true)]
    requires if HasRung(now, s, entries[n].order)
             then id in now && now[id].structure == s && now[id].order == entries[n].order
             else id == newId
    requires r in before || r in next
    ensures Says(before, next, s, entries, n + 1, r)
  {
  }

  lemma RetireRest(before: map<Id, Rung>, upserted: map<Id, Rung>, after: map<Id, Rung>, s: Id, entries: seq<Entry>, retire: set<Id>)
    requires Upserted(before, upserted, s, entries, |entries|) && Indexed(upserted)
    requires NotListed(before, s, entries, retire)
    requires after == map id | id in upserted :: if id in retire then upserted[id].(active := false) else upserted[id]
    ensures ReplacedSparing(before, after, s, entries, retire)
  {
    hide Named, Listed, NamedTo, ListedTo;
    forall order ensures ListedTo(entries, |entries|, order) <==> Listed(entries, order) { AllListed(entries, order, ""); }
    forall order, name ensures NamedTo(entries, |entries|, order, name) <==> Named(entries, order, name) {
      AllListed(entries, order, name);
    }
    forall id | id in before || id in upserted ensures Says(before, upserted, s, entries, |entries|, id) {
      SaysOfKnown(before, upserted, s, entries, |entries|, id);
    }
    forall i | 0 <= i < |entries| ensures HasRung(after, s, entries[i].order) {
      assert HasRung(upserted, s, entries[i].order);
      var r :| r in upserted && upserted[r].structure == s && upserted[r].order == entries[i].order;
      assert r in after && after[r].order == entries[i].order;
    }
  }

  lemma AllListed(entries: seq<Entry>, order: int, name: string)
    ensures ListedTo(entries, |entries|, order) <==> Listed(entries, order)
    ensures NamedTo(entries, |entries|, order, name) <==> Named(entries, order, name)
  {
  }
}
