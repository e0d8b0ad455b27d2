/** Strings in the order of their characters, and the sorted list of a set of them. */
module StringOrder {

  predicate Less(a: string, b: string) {
    b != "" && (a == "" || a[0] < b[0] || (a[0] == b[0] && Less(a[1..], b[1..])))
  }

  lemma {:induction false} Trichotomy(a: string, b: string)
    ensures a == b || Less(a, b) || Less(b, a)
    ensures !(Less(a, b) && Less(b, a)) && !Less(a, a)
  {
    if a != "" && b != "" {
      Trichotomy(a[1..], b[1..]);
      Trichotomy(a[1..], a[1..]);
      assert a[0] == b[0] && a[1..] == b[1..] ==> a == [a[0]] + a[1..] == b;
    } else if a != "" {
      Trichotomy(a[1..], a[1..]);
    }
  }

  lemma {:induction false} LessTrans(a: string, b: string, c: string)
    requires Less(a, b) && Less(b, c)
    ensures Less(a, c)
  {
    if a != "" && a[0] == b[0] == c[0] { LessTrans(a[1..], b[1..], c[1..]); }
  }

  /** Sorted, each id once. */
  function Insert(x: string, sorted: seq<string>): seq<string> {
    if sorted == [] then [x]
    else if x == sorted[0] then sorted
    else if Less(x, sorted[0]) then [x] + sorted
    else [sorted[0]] + Insert(x, sorted[1..])
  }

  function SortedSet(ids: seq<string>): seq<string> {
    if ids == [] then [] else Insert(ids[0], SortedSet(ids[1..]))
  }

  ghost predicate Ascending(ids: seq<string>) {
    forall i, j :: 0 <= i < j < |ids| ==> Less(ids[i], ids[j])
  }

  lemma {:induction false} InsertIs(x: string, sorted: seq<string>)
    requires Ascending(sorted)
    ensures Ascending(Insert(x, sorted)) && forall y :: y in Insert(x, sorted) <==> y == x || y in sorted
  {
    if sorted != [] {
      Trichotomy(x, sorted[0]);
      if Less(x, sorted[0]) {
        forall j | 0 <= j < |sorted| ensures Less(x, sorted[j]) {
          if j > 0 { LessTrans(x, sorted[0], sorted[j]); }
        }
      } else if x != sorted[0] {
        InsertIs(x, sorted[1..]);
        forall y | y in Insert(x, sorted[1..]) ensures Less(sorted[0], y) {
          if y != x {
            var j :| 0 <= j < |sorted[1..]| && sorted[1..][j] == y;
            assert sorted[j + 1] == y;
          }
        }
        assert Insert(x, sorted)[1..] == Insert(x, sorted[1..]);
      }
    }
  }

  lemma {:induction false} SortedSetIs(ids: seq<string>)
    ensures Ascending(SortedSet(ids)) && forall y :: y in SortedSet(ids) <==> y in ids
  {
    if ids != [] {
      SortedSetIs(ids[1..]);
      InsertIs(ids[0], SortedSet(ids[1..]));
    }
  }

  /** An ascending list is determined by its elements. */
  lemma {:induction false} AscendingIsUnique(a: seq<string>, b: seq<string>)
    requires Ascending(a) && Ascending(b) && forall y :: y in a <==> y in b
    ensures a == b
    decreases |a|
  {
    if a == [] {
      HeadIn(b);
    } else {
      HeadIn(a);
      HeadIn(b);
      SameHead(a, b);
      TailsAgree(a, b);
      TailsAgree(b, a);
      AscendingIsUnique(a[1..], b[1..]);
    }
  }

  lemma HeadIn(ids: seq<string>)
    ensures ids == [] || ids[0] in ids
  {
  }

  lemma HeadIsLeast(ids: seq<string>, y: string)
    requires Ascending(ids) && y in ids
    ensures y == ids[0] || Less(ids[0], y)
  {
  }

  lemma SameHead(a: seq<string>, b: seq<string>)
    requires Ascending(a) && Ascending(b) && a != [] && b != [] && a[0] in b && b[0] in a
    ensures a[0] == b[0]
  {
    Trichotomy(a[0], b[0]);
    HeadIsLeast(a, b[0]);
    HeadIsLeast(b, a[0]);
  }

  lemma TailsAgree(a: seq<string>, b: seq<string>)
    requires Ascending(a) && a != [] && b != [] && a[0] == b[0] && forall y :: y in a ==> y in b
    ensures forall y :: y in a[1..] ==> y in b[1..]
  {
    forall y | y in a[1..] ensures y in b[1..] {
      var i :| 0 <= i < |a[1..]| && a[1..][i] == y;
      assert a[i + 1] == y && Less(a[0], a[i + 1]);
      Trichotomy(y, y);
      assert y in a && y in b;
      var j :| 0 <= j < |b| && b[j] == y;
      assert b[1..][j - 1] == y;
    }
  }
}
