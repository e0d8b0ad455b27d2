/**
  Resolution is the best structure by a stated precedence, and a rung is accepted
  exactly when it belongs to the ladder of every selected department.
 */
module LadderTheorems {
  import opened Options
  import opened StringOrder
  import opened LadderModel

  // ---------------------------------------------------------------------------
  // Precedence
  // ---------------------------------------------------------------------------

  const NOT_ELIGIBLE := 5

  /** 0 own department, 1 pin, 2 faculty, 3 university, 4 platform. */
  function Rank(t: Tables, scope: Scope, s: Structure): nat {
    if !s.active then NOT_ELIGIBLE
    else if scope.department != NONE && s.key == Department(scope.department) then 0
    else
      var f := PinFaculty(t, scope);
      if f != NONE && f in t.pins && t.pins[f] == s.id then 1
      else if HasFaculty(t, scope) && s.key == Faculty(f) then 2
      else if s.key.University? && UniversityOf(t, scope) == Some(s.key.id) then 3
      else if s.key == Platform then 4
      else NOT_ELIGIBLE
  }

  predicate HasFaculty(t: Tables, scope: Scope) {
    if scope.department != NONE then scope.department in t.departments else scope.faculty != NONE
  }

  function UniversityOf(t: Tables, scope: Scope): Option<Id> {
    if HasFaculty(t, scope) then
      var f := PinFaculty(t, scope);
      if f in t.faculties then Some(t.faculties[f].parent) else None
    else if scope.department == NONE && scope.university != NONE then Some(scope.university)
    else None
  }

  /** Nobody ranks better, and of the same rank nobody is older. */
  ghost predicate IsBest(t: Tables, scope: Scope, s: Structure) {
    && s in t.structures && Rank(t, scope, s) < NOT_ELIGIBLE
    && forall other :: other in t.structures ==>
         Rank(t, scope, s) < Rank(t, scope, other)
         || (Rank(t, scope, s) == Rank(t, scope, other) && (other == s || Before(s, other)))
         || Rank(t, scope, other) == NOT_ELIGIBLE
  }

  lemma {:induction false} FindKeyIsOldest(structures: seq<Structure>, key: ScopeKey)
    requires Ordered(structures)
    ensures match FindKey(structures, key)
            case Some(s) =>
              s in structures && s.active && s.key == key
              && forall o :: o in structures && o.active && o.key == key ==> o == s || Before(s, o)
            case None => forall o :: o in structures && o.active ==> o.key != key
  {
    if structures != [] {
      FindKeyIsOldest(structures[1..], key);
      forall o | o in structures && o != structures[0] ensures o in structures[1..] && Before(structures[0], o) {
        var i :| 0 <= i < |structures| && structures[i] == o;
        assert structures[1..][i - 1] == o;
      }
    }
  }

  lemma {:induction false} FindIdIs(structures: seq<Structure>, id: Id)
    requires Ordered(structures)
    ensures match FindId(structures, id)
            case Some(s) => s in structures && s.id == id && forall o :: o in structures && o.id == id ==> o == s
            case None => forall o :: o in structures ==> o.id != id
  {
    if structures != [] {
      FindIdIs(structures[1..], id);
      forall o | o in structures && o != structures[0] ensures o in structures[1..] && o.id != structures[0].id {
        var i :| 0 <= i < |structures| && structures[i] == o;
        assert structures[1..][i - 1] == o;
      }
    }
  }

  /** The keys to try are the faculty's, the university's and the platform's, after the department's own. */
  lemma CandidatesAre(t: Tables, scope: Scope)
    requires OwnerCount(scope) <= 1
    ensures Candidates(t, scope)
            == (if scope.department != NONE then [Department(scope.department)] else [])
               + (if HasFaculty(t, scope) then [Faculty(PinFaculty(t, scope))] else [])
               + (if UniversityOf(t, scope).Some? then [University(UniversityOf(t, scope).value)] else [])
               + [Platform]
  {
  }

  lemma PinnedIs(t: Tables, f: Id)
    requires Ordered(t.structures)
    ensures match Pinned(t, f)
            case Some(s) => s in t.structures && s.active && f != NONE && f in t.pins && t.pins[f] == s.id
                            && forall o :: o in t.structures && o.id == t.pins[f] ==> o == s
            case None => forall o :: o in t.structures && o.active && f != NONE && f in t.pins ==> t.pins[f] != o.id
  {
    if f != NONE && f in t.pins { FindIdIs(t.structures, t.pins[f]); }
  }

  /** What the search over the candidates finds. */
  lemma FirstHitIsBest(t: Tables, scope: Scope)
    requires Ordered(t.structures) && OwnerCount(scope) <= 1
    requires scope.department != NONE ==> FindKey(t.structures, Department(scope.department)).None?
    requires Pinned(t, PinFaculty(t, scope)).None?
    ensures match FirstHit(t.structures, Candidates(t, scope))
            case Some(s) => IsBest(t, scope, s)
            case None => forall s :: s in t.structures ==> Rank(t, scope, s) == NOT_ELIGIBLE
  {
    hide FindKey, FirstHit, Pinned, Candidates, Ordered, Before, OwnerCount;
    CandidatesAre(t, scope);
    PinnedIs(t, PinFaculty(t, scope));
    if scope.department != NONE { FindKeyIsOldest(t.structures, Department(scope.department)); }
    if HasFaculty(t, scope) { FindKeyIsOldest(t.structures, Faculty(PinFaculty(t, scope))); }
    if UniversityOf(t, scope).Some? { FindKeyIsOldest(t.structures, University(UniversityOf(t, scope).value)); }
    FindKeyIsOldest(t.structures, Platform);
    FirstOf(t.structures, Candidates(t, scope), One(scope.department != NONE, Department(scope.department)),
            One(HasFaculty(t, scope), Faculty(PinFaculty(t, scope))),
            One(UniversityOf(t, scope).Some?, University(if UniversityOf(t, scope).Some? then UniversityOf(t, scope).value else NONE)));
  }

  function One(given: bool, key: ScopeKey): seq<ScopeKey> {
    if given then [key] else []
  }

  /** Searching three optional keys and then the platform. */
  lemma FirstOf(structures: seq<Structure>, keys: seq<ScopeKey>, a: seq<ScopeKey>, b: seq<ScopeKey>, c: seq<ScopeKey>)
    requires keys == a + b + c + [Platform] && |a| <= 1 && |b| <= 1 && |c| <= 1
    ensures FirstHit(structures, keys)
            == if a != [] && FindKey(structures, a[0]).Some? then FindKey(structures, a[0])
               else if b != [] && FindKey(structures, b[0]).Some? then FindKey(structures, b[0])
               else if c != [] && FindKey(structures, c[0]).Some? then FindKey(structures, c[0])
               else FindKey(structures, Platform)
  {
    hide FirstHit;
    assert keys == a + (b + (c + [Platform]));
    FirstOrRest(structures, a, b + (c + [Platform]));
    FirstOrRest(structures, b, c + [Platform]);
    FirstOrRest(structures, c, [Platform]);
    FirstOrRest(structures, [Platform], []);
  }

  lemma FirstOrRest(structures: seq<Structure>, one: seq<ScopeKey>, rest: seq<ScopeKey>)
    requires |one| <= 1
    ensures FirstHit(structures, one + rest)
            == if one != [] && FindKey(structures, one[0]).Some? then FindKey(structures, one[0])
               else FirstHit(structures, rest)
    ensures FirstHit(structures, []) == None && one + [] == one
  {
    assert one != [] ==> (one + rest)[1..] == rest;
    assert one == [] ==> one + rest == rest;
  }

  /**
    Resolution answers with the best structure: own department, active pin,
    faculty, university, platform, and the oldest among equals; with none exactly
    when no structure is eligible.
   */
  lemma ResolveIsBest(t: Tables, scope: Scope)
    requires Ordered(t.structures)
    ensures Resolve(t, scope).Err? <==> OwnerCount(scope) > 1
    ensures Resolve(t, scope).Ok? ==>
              match Resolve(t, scope).value
              case Some(s) => IsBest(t, scope, s)
              case None => forall s :: s in t.structures ==> Rank(t, scope, s) == NOT_ELIGIBLE
  {
    hide FindKey, Pinned, Candidates, Ordered, Before, FirstHit;
    if OwnerCount(scope) <= 1 {
      if scope.department != NONE { FindKeyIsOldest(t.structures, Department(scope.department)); }
      PinnedIs(t, PinFaculty(t, scope));
      if (scope.department == NONE || FindKey(t.structures, Department(scope.department)).None?)
         && Pinned(t, PinFaculty(t, scope)).None? {
        FirstHitIsBest(t, scope);
      }
    }
  }

  /** There is one best structure at most. */
  lemma BestIsUnique(t: Tables, scope: Scope, a: Structure, b: Structure)
    requires IsBest(t, scope, a) && IsBest(t, scope, b)
    ensures a == b
  {
    hide Rank;
    if Before(a, b) && Before(b, a) { Trichotomy(a.id, b.id); }
  }

  // ---------------------------------------------------------------------------
  // Rungs
  // ---------------------------------------------------------------------------

  predicate InLadder(t: Tables, rung: Id, scope: Scope, requireActive: bool) {
    CheckRung(t, rung, scope, requireActive).Ok?
  }

  /** Neither the order nor repetitions of the departments change anything, not even which error is reported. */
  lemma OrderAndRepeatsDoNotMatter(t: Tables, rung: Id, p: Placement, q: Placement, requireActive: bool)
    requires p == q.(departments := p.departments) && forall d :: d in p.departments <==> d in q.departments
    ensures CheckYear(t, rung, p, requireActive) == CheckYear(t, rung, q, requireActive)
  {
    SortedSetIs(p.departments);
    SortedSetIs(q.departments);
    AscendingIsUnique(SortedSet(p.departments), SortedSet(q.departments));
    if SortedSet(p.departments) != [] {
      OthersSame(t, rung, p, q, requireActive, SortedSet(p.departments)[1..]);
    }
  }

  lemma {:induction false} OthersSame(t: Tables, rung: Id, p: Placement, q: Placement, requireActive: bool, rest: seq<Id>)
    requires p == q.(departments := p.departments)
    requires |rest| < |SortedSet(p.departments)| && |rest| < |SortedSet(q.departments)|
    ensures CheckOthers(t, rung, p, requireActive, rest) == CheckOthers(t, rung, q, requireActive, rest)
    decreases |rest|
  {
    hide SortedSet, CheckYear;
    if rest != [] { OthersSame(t, rung, p, q, requireActive, rest[1..]); }
  }

  lemma OneDepartment(t: Tables, rung: Id, p: Placement, d: Id, requireActive: bool)
    requires rung != NONE
    ensures CheckYear(t, rung, p.(departments := [d]), requireActive).Ok? <==> InLadder(t, rung, Lead(p, d), requireActive)
  {
    assert SortedSet([d]) == [d];
    assert CheckOthers(t, rung, p.(departments := [d]), requireActive, []) == Ok(true);
    assert [d][1..] == [];
  }

  lemma {:induction false} OthersAccept(t: Tables, rung: Id, p: Placement, requireActive: bool, rest: seq<Id>)
    requires rung != NONE && |rest| < |SortedSet(p.departments)|
    ensures CheckOthers(t, rung, p, requireActive, rest).Ok? <==>
            forall d :: d in rest ==> InLadder(t, rung, Lead(p, d), requireActive)
    decreases |rest|
  {
    hide SortedSet, CheckYear, InLadder;
    if rest != [] {
      OneDepartment(t, rung, p, rest[0], requireActive);
      OthersAccept(t, rung, p, requireActive, rest[1..]);
      assert rest == [rest[0]] + rest[1..];
    }
  }

  /**
    A rung is accepted exactly when it belongs to the ladder of every selected
    department - or, where none is selected, to that of the faculty, and without
    one of the university. An empty department id counts as none selected.
   */
  lemma AcceptedIff(t: Tables, rung: Id, p: Placement, requireActive: bool)
    requires rung != NONE
    ensures CheckYear(t, rung, p, requireActive).Ok? <==>
            (forall d :: d in p.departments ==> InLadder(t, rung, Lead(p, d), requireActive))
            && (p.departments == [] ==> InLadder(t, rung, Lead(p, NONE), requireActive))
  {
    hide InLadder, CheckOthers;
    var ids := SortedSet(p.departments);
    SortedSetIs(p.departments);
    if ids == [] {
      HeadIn(p.departments);
      InLadderIs(t, rung, Lead(p, NONE), requireActive);
    } else {
      assert ids[0] in p.departments;
      OthersAccept(t, rung, p, requireActive, ids[1..]);
      InLadderIs(t, rung, Lead(p, ids[0]), requireActive);
      assert forall d :: d in ids <==> d == ids[0] || d in ids[1..] by { assert ids == [ids[0]] + ids[1..]; }
    }
  }

  lemma InLadderIs(t: Tables, rung: Id, scope: Scope, requireActive: bool)
    ensures InLadder(t, rung, scope, requireActive) <==> CheckRung(t, rung, scope, requireActive).Ok?
  {
  }

  /** And a ladder has the rung exactly when the best structure is the rung's own. */
  lemma InLadderIff(t: Tables, rung: Id, p: Placement, d: Id, requireActive: bool)
    requires Ordered(t.structures)
    ensures InLadder(t, rung, Lead(p, d), requireActive) <==>
            exists s :: IsBest(t, Lead(p, d), s) && rung in t.rungs && t.rungs[rung].structure == s.id
                        && (requireActive ==> t.rungs[rung].active)
  {
    hide IsBest, Resolve;
    var scope := Lead(p, d);
    ResolveIsBest(t, scope);
    NoneIsBest(t, scope);
    assert OwnerCount(scope) <= 1;
    if exists s :: IsBest(t, scope, s) && rung in t.rungs && t.rungs[rung].structure == s.id
                   && (requireActive ==> t.rungs[rung].active) {
      var s :| IsBest(t, scope, s) && rung in t.rungs && t.rungs[rung].structure == s.id
               && (requireActive ==> t.rungs[rung].active);
      assert Resolve(t, scope).value.Some?;
      BestIsUnique(t, scope, s, Resolve(t, scope).value.value);
    }
  }

  lemma NoneIsBest(t: Tables, scope: Scope)
    ensures (forall s :: s in t.structures ==> Rank(t, scope, s) == NOT_ELIGIBLE) ==> forall s :: !IsBest(t, scope, s)
  {
  }
}
