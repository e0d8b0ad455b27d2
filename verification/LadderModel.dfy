/**
  Which academic ladder supplies the years of a unit, and whether a rung belongs
  to it. An id is a string; the empty string stands for a missing one, as both
  are false to the program.
 */
module LadderModel {
  import opened Options
  import opened StringOrder

  type Id = string

  const NONE: Id := ""

  datatype Kind = YEAR | LEVEL

  /** The unit that owns a structure; the program writes it as a prefixed string. */
  datatype ScopeKey = Department(id: Id) | Faculty(id: Id) | University(id: Id) | Platform

  datatype Structure = Structure(id: Id, kind: Kind, key: ScopeKey, active: bool, createdAt: int)

  datatype Unit = Unit(parent: Id, studyType: int, active: bool, deleted: bool)

  datatype Rung = Rung(structure: Id, order: int, name: string, active: bool)

  /** `structures` stand in the order of the query, oldest first and then by id. */
  datatype Tables = Tables(
    structures: seq<Structure>, pins: map<Id, Id>,
    universities: map<Id, Unit>, faculties: map<Id, Unit>, departments: map<Id, Unit>, rungs: map<Id, Rung>)

  datatype Scope = Scope(university: Id, faculty: Id, department: Id)

  datatype Error = TooManyOwners | NoStructure | NotInLadder(kind: Kind)

  predicate Before(a: Structure, b: Structure) {
    a.createdAt < b.createdAt || (a.createdAt == b.createdAt && Less(a.id, b.id))
  }

  ghost predicate Ordered(structures: seq<Structure>) {
    forall i, j :: 0 <= i < j < |structures| ==> Before(structures[i], structures[j]) && structures[i].id != structures[j].id
  }

  // ---------------------------------------------------------------------------
  // Resolution
  // ---------------------------------------------------------------------------

  function OwnerCount(scope: Scope): nat {
    (if scope.university != NONE then 1 else 0) + (if scope.faculty != NONE then 1 else 0)
    + (if scope.department != NONE then 1 else 0)
  }

  /** The keys to try, nearest unit first. */
  function Candidates(t: Tables, scope: Scope): seq<ScopeKey> {
    (if scope.department != NONE then
       [Department(scope.department)]
       + (if scope.department in t.departments then
            var f := t.departments[scope.department].parent;
            [Faculty(f)] + (if f in t.faculties then [University(t.faculties[f].parent)] else [])
          else [])
     else if scope.faculty != NONE then
       [Faculty(scope.faculty)]
       + (if scope.faculty in t.faculties then [University(t.faculties[scope.faculty].parent)] else [])
     else if scope.university != NONE then [University(scope.university)]
     else [])
    + [Platform]
  }

  /** The faculty whose pin applies. */
  function PinFaculty(t: Tables, scope: Scope): Id {
    if scope.department != NONE then
      if scope.department in t.departments then t.departments[scope.department].parent else NONE
    else scope.faculty
  }

  /** The oldest active structure with this key. */
  function FindKey(structures: seq<Structure>, key: ScopeKey): Option<Structure> {
    if structures == [] then None
    else if structures[0].active && structures[0].key == key then Some(structures[0])
    else FindKey(structures[1..], key)
  }

  function FindId(structures: seq<Structure>, id: Id): Option<Structure> {
    if structures == [] then None
    else if structures[0].id == id then Some(structures[0])
    else FindId(structures[1..], id)
  }

  function FirstHit(structures: seq<Structure>, candidates: seq<ScopeKey>): Option<Structure> {
    if candidates == [] then None
    else
      var hit := FindKey(structures, candidates[0]);
      if hit.Some? then hit else FirstHit(structures, candidates[1..])
  }

  /** The structure an applicable pin points to, if it is active. */
  function Pinned(t: Tables, f: Id): Option<Structure> {
    if f != NONE && f in t.pins then
      var s := FindId(t.structures, t.pins[f]);
      if s.Some? && s.value.active then s else None
    else None
  }

  function Resolve(t: Tables, scope: Scope): Result<Option<Structure>, Error> {
    if OwnerCount(scope) > 1 then Err(TooManyOwners)
    else
      var own := if scope.department != NONE then FindKey(t.structures, Department(scope.department)) else None;
      if own.Some? then Ok(own)
      else
        var pinned := Pinned(t, PinFaculty(t, scope));
        if pinned.Some? then Ok(pinned) else Ok(FirstHit(t.structures, Candidates(t, scope)))
  }

  // ---------------------------------------------------------------------------
  // A rung against the ladders of the selected departments
  // ---------------------------------------------------------------------------

  datatype Placement = Placement(university: Id, faculty: Id, departments: seq<Id>)

  function CheckRung(t: Tables, rung: Id, scope: Scope, requireActive: bool): Result<Structure, Error> {
    var ladder := Resolve(t, scope);
    if ladder.Err? then Err(ladder.error)
    else if ladder.value.None? then Err(NoStructure)
    else
      var s := ladder.value.value;
      if rung in t.rungs && t.rungs[rung].structure == s.id && (requireActive ==> t.rungs[rung].active) then Ok(s)
      else Err(NotInLadder(s.kind))
  }

  function Lead(p: Placement, department: Id): Scope {
    Scope(if department != NONE || p.faculty != NONE then NONE else p.university,
          if department != NONE then NONE else p.faculty,
          department)
  }

  /**
    The rung is checked against every department after the first by a call for
    that department alone, and then against the first. Each call inside has one
    department, so the number of departments is the measure.
   */
  function CheckYear(t: Tables, rung: Id, p: Placement, requireActive: bool): Result<bool, Error>
    decreases |SortedSet(p.departments)|, 1
  {
    if rung == NONE then Ok(false)
    else
      var ids := SortedSet(p.departments);
      var others := if ids == [] then Ok(true) else CheckOthers(t, rung, p, requireActive, ids[1..]);
      if others.Err? then others
      else
        var first := CheckRung(t, rung, Lead(p, if ids == [] then NONE else ids[0]), requireActive);
        if first.Err? then Err(first.error) else Ok(true)
  }

  function CheckOthers(t: Tables, rung: Id, p: Placement, requireActive: bool, rest: seq<Id>): Result<bool, Error>
    requires |rest| < |SortedSet(p.departments)|
    decreases |SortedSet(p.departments)|, 0, |rest|
  {
    if rest == [] then Ok(true)
    else
      assert SortedSet([rest[0]]) == [rest[0]];
      var one := CheckYear(t, rung, p.(departments := [rest[0]]), requireActive);
      if one.Err? then one else CheckOthers(t, rung, p, requireActive, rest[1..])
  }
}
