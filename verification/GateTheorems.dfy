/**
  What the gate reads is what was printed: the pending migrations of a status
  report come back from either format or from both, and such a report never
  passes.
 */
module GateTheorems {
  import opened Options
  import opened StringOrder
  import opened GateModel

  // ---------------------------------------------------------------------------
  // Printed reports
  // ---------------------------------------------------------------------------

  predicate IsEol(eol: string) {
    eol == "\n" || eol == "\r\n"
  }

  predicate IsLine(l: string) {
    '\n' !in l && '\r' !in l
  }

  function Text(lines: seq<string>, eol: string): string {
    if lines == [] then "" else lines[0] + eol + Text(lines[1..], eol)
  }

  function Row(name: string): string {
    [BAR] + (" " + (name + (" " + ([BAR] + (" pending migration " + [BAR])))))
  }

  function Rows(names: seq<string>): (lines: seq<string>)
    ensures |lines| == |names| && forall i :: 0 <= i < |lines| ==> lines[i] == Row(names[i])
  {
    if names == [] then [] else [Row(names[0])] + Rows(names[1..])
  }

  function Prefix(plural: bool): string {
    "Following" + (" " + ("migration" + ((if plural then "s" else "") + " ")))
  }

  function HaveNot(): string {
    "have" + (" " + ("not" + " "))
  }

  function YetBeen(): string {
    "yet" + (" " + ("been" + " "))
  }

  function Header(plural: bool): string {
    Prefix(plural) + (HaveNot() + (YetBeen() + ("applied" + ":")))
  }

  function Blank(n: nat): (lines: seq<string>)
    ensures |lines| == n && forall i :: 0 <= i < n ==> lines[i] == ""
  {
    if n == 0 then [] else [""] + Blank(n - 1)
  }

  /** A line that neither lists a pending row nor contains the first word of the declaration. */
  predicate Other(l: string) {
    IsLine(l) && !Contains(Lower(l), "pending migration") && !Contains(Lower(l), "following")
  }

  /** The table, which may be empty, between other lines. */
  function Table(pre: seq<string>, rows: seq<string>, mid: seq<string>): seq<string> {
    pre + (Rows(rows) + mid)
  }

  /** The plain list, with any number of blank lines above it. */
  function List(plural: bool, blanks: nat, names: seq<string>, post: seq<string>): seq<string> {
    [Header(plural)] + (Blank(blanks) + (names + ([""] + post)))
  }

  // ---------------------------------------------------------------------------
  // Lines and cells
  // ---------------------------------------------------------------------------

  lemma {:induction false} FirstLine(l: string, eol: string, rest: string)
    requires IsLine(l) && IsEol(eol)
    ensures Lines(l + eol + rest) == [l] + Lines(rest)
  {
    if l == "" {
      assert (eol + rest)[|eol|..] == rest;
    } else {
      FirstLine(l[1..], eol, rest);
      assert l[0] in l;
      assert (l + eol + rest)[1..] == l[1..] + eol + rest;
      assert [l[0]] + l[1..] == l;
    }
  }

  lemma {:induction false} LinesOfText(lines: seq<string>, eol: string)
    requires IsEol(eol) && forall i :: 0 <= i < |lines| ==> IsLine(lines[i])
    ensures Lines(Text(lines, eol)) == lines + [""]
  {
    if lines != [] {
      LinesOfText(lines[1..], eol);
      FirstLine(lines[0], eol, Text(lines[1..], eol));
      assert lines == [lines[0]] + lines[1..];
    }
  }

  lemma {:induction false} TextAppend(a: seq<string>, b: seq<string>, eol: string)
    ensures Text(a + b, eol) == Text(a, eol) + Text(b, eol)
  {
    if a == [] {
      assert a + b == b;
    } else {
      assert (a + b)[1..] == a[1..] + b;
      TextAppend(a[1..], b, eol);
    }
  }

  lemma {:induction false} RowNamesAppend(a: seq<string>, b: seq<string>)
    ensures RowNames(a + b) == RowNames(a) + RowNames(b)
  {
    hide RowName;
    if a == [] {
      assert a + b == b;
    } else {
      assert (a + b)[1..] == a[1..] + b;
      RowNamesAppend(a[1..], b);
    }
  }

  lemma {:induction false} NoRowNames(lines: seq<string>)
    requires forall i :: 0 <= i < |lines| ==> !Contains(Lower(lines[i]), "pending migration")
    ensures RowNames(lines) == []
  {
    if lines != [] { NoRowNames(lines[1..]); }
  }

  lemma {:induction false} FirstCell(a: string, rest: string)
    requires BAR !in a
    ensures Cells(a + ([BAR] + rest)) == [a] + Cells(rest)
  {
    if a == "" {
      assert a + ([BAR] + rest) == [BAR] + rest && ([BAR] + rest)[1..] == rest;
    } else {
      FirstCell(a[1..], rest);
      assert (a + ([BAR] + rest))[1..] == a[1..] + ([BAR] + rest);
      assert [a[0]] + a[1..] == a;
    }
  }

  lemma NameChars(name: string)
    requires IsName(name)
    ensures name != "" && forall i :: 0 <= i < |name| ==> IsWord(name[i])
    ensures IsLine(name) && BAR !in name && IsLine(Row(name))
  {
  }

  lemma TrimmedName(name: string)
    requires IsName(name)
    ensures Trim(name) == name && Trim(" " + (name + " ")) == name
  {
    NameChars(name);
    assert (" " + (name + " "))[1..] == name + " ";
    assert SkipSpace(name + " ") == name + " ";
    assert (name + " ")[..|name|] == name;
  }

  lemma {:induction false} ContainsLater(a: string, m: string, b: string)
    ensures Contains(a + (m + b), m)
  {
    if a == "" {
      assert a + (m + b) == m + b && (m + b)[..|m|] == m;
    } else {
      assert (a + (m + b))[1..] == a[1..] + (m + b);
      ContainsLater(a[1..], m, b);
    }
  }

  lemma {:induction false} LowerAppend(a: string, b: string)
    ensures Lower(a + b) == Lower(a) + Lower(b)
  {
  }

  lemma RowCells(name: string)
    requires BAR !in name
    ensures Cells(Row(name)) == ["", " " + (name + " ")] + Cells(" pending migration " + [BAR])
  {
    hide Cells;
    var tail := " pending migration " + [BAR];
    var rest := " " + (name + (" " + ([BAR] + tail)));
    FirstCell("", rest);
    assert "" + ([BAR] + rest) == Row(name);
    assert rest == (" " + (name + " ")) + ([BAR] + tail);
    FirstCell(" " + (name + " "), tail);
  }

  /** A table row gives back its name. */
  lemma RowGivesName(name: string)
    requires IsName(name)
    ensures RowName(Row(name)) == Some(name)
  {
    hide Lower, Contains, Cells, IsName, Row, Trim;
    NameChars(name);
    TrimmedName(name);
    RowSaysPending(name);
    RowCells(name);
    EmptyIsNoName();
    var more := Cells(" pending migration " + [BAR]);
    var cells := ["", " " + (name + " ")] + more;
    assert cells[1..] == [" " + (name + " ")] + more;
    assert FindName(cells) == FindName(cells[1..]);
  }

  lemma EmptyIsNoName()
    ensures Trim("") == "" && !IsName("") && IsLine("")
  {
  }

  lemma RowSaysPending(name: string)
    ensures Contains(Lower(Row(name)), "pending migration")
  {
    hide Lower, Contains;
    var m := "pending migration";
    var before := [BAR] + (" " + (name + (" " + ([BAR] + " "))));
    assert Row(name) == before + (m + (" " + [BAR]));
    LowerAppend(before, m + (" " + [BAR]));
    LowerAppend(m, " " + [BAR]);
    LowerOfPending();
    ContainsLater(Lower(before), m, Lower(" " + [BAR]));
  }

  lemma LowerOfPending()
    ensures Lower("pending migration") == "pending migration"
  {
    hide Lower;
    AlreadyLower("pending migration");
  }

  lemma AlreadyLower(s: string)
    requires forall c :: c in s ==> !('A' <= c <= 'Z')
    ensures Lower(s) == s
  {
    hide Lower;
    assert forall i :: 0 <= i < |s| ==> s[i] in s;
    assert Lower(s) == s;
  }

  lemma {:induction false} RowsGiveNames(names: seq<string>)
    requires forall i :: 0 <= i < |names| ==> IsName(names[i])
    ensures RowNames(Rows(names)) == names
  {
    hide RowName, Row, IsName;
    if names != [] {
      RowGivesName(names[0]);
      RowsGiveNames(names[1..]);
      assert Rows(names)[1..] == Rows(names[1..]);
      assert names == [names[0]] + names[1..];
    }
  }

  lemma {:induction false} ContainedChars(s: string, m: string, c: char)
    requires Contains(s, m) && c in m
    ensures c in s
  {
    if StartsWith(s, m) {
      var i :| 0 <= i < |m| && m[i] == c;
      assert s[i] == c;
    } else {
      ContainedChars(s[1..], m, c);
    }
  }

  lemma NameIsNoRow(name: string)
    requires IsName(name)
    ensures !Contains(Lower(name), "pending migration")
  {
    NameChars(name);
    if Contains(Lower(name), "pending migration") {
      assert "pending migration"[7] == ' ';
      ContainedChars(Lower(name), "pending migration", ' ');
      assert false;
    }
  }

  // ---------------------------------------------------------------------------
  // The declaration
  // ---------------------------------------------------------------------------

  lemma Eats(word: string, w: string, rest: string)
    requires Lower(word) == w
    ensures Eat(Some(word + rest), w) == Some(rest)
  {
  }

  lemma Gaps(rest: string)
    requires rest != "" && !IsSpace(rest[0])
    ensures Gap(Some(" " + rest)) == Some(rest)
  {
  }

  lemma Word(word: string, w: string, rest: string)
    requires Lower(word) == w && word != "" && rest != "" && !IsSpace(rest[0])
    ensures Gap(Eat(Some(word + (" " + rest)), w)) == Some(rest)
  {
  }

  lemma LowerWords()
    ensures Lower("Following") == "following" && Lower("migration") == "migration" && Lower("s") == "s"
    ensures Lower("have") == "have" && Lower("not") == "not" && Lower("yet") == "yet" && Lower("been") == "been"
    ensures Lower("applied") == "applied"
  {
    hide Lower;
    LowerOfFollowing();
    AlreadyLower("migration");
    AlreadyLower("s");
    AlreadyLower("have");
    AlreadyLower("not");
    AlreadyLower("yet");
    AlreadyLower("been");
    AlreadyLower("applied");
  }

  lemma LowerOfFollowing()
    ensures Lower("Following") == "following"
  {
  }

  lemma AppliedMatches(rest: string, s: string)
    requires rest != "" && rest[0] != ' ' && rest[0] != '\t'
    requires s == "have" + (" " + ("not" + (" " + ("yet" + (" " + ("been" + (" " + ("applied" + (":" + rest)))))))))
    ensures var yet := Gap(Eat(Gap(Eat(Gap(Eat(Some(s), "have")), "not")), "yet"));
            Eat(Gap(Eat(yet, "been")), "applied") == Some(":" + rest)
  {
    hide Eat, Gap, Lower;
    LowerWords();
    var s5 := "applied" + (":" + rest);
    var s4 := "been" + (" " + s5);
    var s3 := "yet" + (" " + s4);
    var s2 := "not" + (" " + s3);
    Word("have", "have", s2);
    Word("not", "not", s3);
    Word("yet", "yet", s4);
    Word("been", "been", s5);
    Eats("applied", "applied", ":" + rest);
  }

  lemma MigrationMatches(plural: bool, s3: string)
    requires s3 != "" && !IsSpace(s3[0])
    ensures Gap(OptionalS(Eat(Gap(Eat(Some(Prefix(plural) + s3), "following")), "migration"))) == Some(s3)
  {
    hide Eat, Gap, Lower;
    LowerWords();
    var s2 := (if plural then "s" else "") + (" " + s3);
    var s1 := "migration" + s2;
    assert Prefix(plural) + s3 == "Following" + (" " + s1);
    Word("Following", "following", s1);
    Eats("migration", "migration", s2);
    PluralSkips(plural, s3);
  }

  lemma HeaderMatches(plural: bool, rest: string)
    requires rest != "" && rest[0] != ' ' && rest[0] != '\t'
    ensures FindHeader(Header(plural) + rest) == Some(rest)
  {
    hide Eat, Gap, Lower, OptionalS, Prefix;
    var s3 := "have" + (" " + ("not" + (" " + ("yet" + (" " + ("been" + (" " + ("applied" + (":" + rest)))))))));
    assert Header(plural) + rest == Prefix(plural) + s3;
    MigrationMatches(plural, s3);
    AppliedMatches(rest, s3);
    assert (":" + rest)[1..] == rest;
  }

  lemma PluralSkips(plural: bool, s: string)
    requires s != "" && !IsSpace(s[0])
    ensures Gap(OptionalS(Some((if plural then "s" else "") + (" " + s)))) == Some(s)
  {
    hide Lower, SkipSpace;
    if plural {
      AlreadyLower("s");
      Eats("s", "s", " " + s);
    } else {
      assert "" + (" " + s) == " " + s;
      assert Lower((" " + s)[..1])[0] == ' ';
    }
    Gaps(s);
  }

  /** No declaration starts with a character other than an f. */
  lemma NotF(c: char, rest: string)
    requires LowerChar(c) != 'f'
    ensures FindHeader([c] + rest) == FindHeader(rest)
  {
  }

  lemma {:induction false} NotFs(a: string, rest: string)
    requires forall i :: 0 <= i < |a| ==> LowerChar(a[i]) != 'f'
    ensures FindHeader(a + rest) == FindHeader(rest)
  {
    hide FindHeader;
    if a == "" {
      assert a + rest == rest;
    } else {
      NotFs(a[1..], rest);
      NotF(a[0], a[1..] + rest);
      assert a + rest == [a[0]] + (a[1..] + rest);
    }
  }

  lemma {:induction false} SkipOther(l: string, eol: string, rest: string)
    requires IsLine(l) && IsEol(eol) && !Contains(Lower(l), "following")
    ensures FindHeader(l + eol + rest) == FindHeader(rest)
  {
    hide FindHeader, MatchHeader, Contains, StartsWith, Lower;
    if l == "" {
      EolHasNoF(eol);
      NotFs(eol, rest);
      assert l + eol + rest == eol + rest;
    } else {
      TailHasNo(l, "following");
      SkipOther(l[1..], eol, rest);
      NoWordHere(l, eol, rest);
      assert (l + eol + rest)[1..] == l[1..] + eol + rest;
      FindNext(l + eol + rest);
    }
  }

  lemma EolHasNoF(eol: string)
    requires IsEol(eol)
    ensures forall i :: 0 <= i < |eol| ==> LowerChar(eol[i]) != 'f'
  {
  }

  lemma TailHasNo(l: string, w: string)
    requires l != "" && !Contains(Lower(l), w)
    ensures !StartsWith(Lower(l), w) && !Contains(Lower(l[1..]), w)
  {
    assert Lower(l)[1..] == Lower(l[1..]);
  }

  lemma FindNext(s: string)
    requires s != "" && MatchHeader(s).None?
    ensures FindHeader(s) == FindHeader(s[1..])
  {
    hide MatchHeader;
  }

  lemma Letters()
    ensures forall i :: 0 <= i < 9 ==> 'a' <= "following"[i] <= 'z'
  {
  }

  lemma NoWordHere(l: string, eol: string, rest: string)
    requires IsEol(eol) && !StartsWith(Lower(l), "following")
    ensures MatchHeader(l + eol + rest).None?
  {
    var s := l + eol + rest;
    if 9 <= |l| {
      assert s[..9] == l[..9];
      assert Lower(l)[..9] == Lower(l[..9]);
    } else if 9 <= |s| {
      Letters();
      assert s[|l|] == eol[0];
      assert Lower(s[..9])[|l|] == LowerChar(eol[0]);
    }
    assert Eat(Some(s), "following").None?;
  }

  lemma {:induction false} SkipOthers(lines: seq<string>, eol: string, rest: string)
    requires IsEol(eol) && forall i :: 0 <= i < |lines| ==> Other(lines[i])
    ensures FindHeader(Text(lines, eol) + rest) == FindHeader(rest)
  {
    hide FindHeader, Contains, Lower, IsLine;
    if lines == [] {
      assert Text(lines, eol) + rest == rest;
    } else {
      SkipOthers(lines[1..], eol, rest);
      var more := Text(lines[1..], eol) + rest;
      assert Text(lines, eol) + rest == lines[0] + eol + more;
      SkipOther(lines[0], eol, more);
    }
  }

  /** A name in a row is followed by a bar, so no declaration starts inside it. */
  lemma {:induction false} SkipName(n: string, rest: string)
    requires forall i :: 0 <= i < |n| ==> IsWord(n[i])
    ensures FindHeader(n + (" " + ([BAR] + rest))) == FindHeader(" " + ([BAR] + rest))
  {
    hide MatchHeader, IsWord;
    var tail := " " + ([BAR] + rest);
    if n == "" {
      assert n + tail == tail;
    } else {
      SkipName(n[1..], rest);
      assert (n + tail)[1..] == n[1..] + tail;
      NoHeaderInName(n, rest);
    }
  }

  lemma NoHeaderInName(n: string, rest: string)
    requires n != "" && forall i :: 0 <= i < |n| ==> IsWord(n[i])
    ensures MatchHeader(n + (" " + ([BAR] + rest))).None?
  {
    var s := n + (" " + ([BAR] + rest));
    var e := Eat(Some(s), "following");
    if |n| < 9 {
      Letters();
      assert 9 <= |s| ==> Lower(s[..9])[|n|] == ' ';
      assert e.None?;
    } else if e.Some? {
      AfterWord(n, rest, e.value);
    }
  }

  /** Behind the first word there is more of the name, or the bar. */
  lemma AfterWord(n: string, rest: string, after: string)
    requires 9 <= |n| && (forall i :: 0 <= i < |n| ==> IsWord(n[i])) && after == (n + (" " + ([BAR] + rest)))[9..]
    ensures Gap(Some(after)) == None || Gap(Some(after)) == Some([BAR] + rest)
    ensures Eat(Some([BAR] + rest), "migration").None?
  {
  }

  lemma SkipRow(name: string, eol: string, rest: string)
    requires IsName(name) && IsEol(eol)
    ensures FindHeader(Row(name) + eol + rest) == FindHeader(rest)
  {
    hide FindHeader;
    NameChars(name);
    var end := " pending migration " + [BAR];
    var tail := end + (eol + rest);
    var middle := " " + ([BAR] + tail);
    assert Row(name) + eol + rest == ([BAR] + " ") + (name + middle);
    NotFs([BAR] + " ", name + middle);
    SkipName(name, tail);
    assert middle == (" " + ([BAR] + (end + eol))) + rest;
    NotFs(" " + ([BAR] + (end + eol)), rest);
  }

  lemma TextFirst(line: string, lines: seq<string>, eol: string)
    ensures Text([line] + lines, eol) == line + eol + Text(lines, eol)
  {
  }

  lemma {:induction false} SkipRows(names: seq<string>, eol: string, rest: string)
    requires IsEol(eol) && forall i :: 0 <= i < |names| ==> IsName(names[i])
    ensures FindHeader(Text(Rows(names), eol) + rest) == FindHeader(rest)
  {
    hide FindHeader, Text, Row, IsName;
    if names == [] {
      NoText(eol);
      assert "" + rest == rest;
    } else {
      SkipRows(names[1..], eol, rest);
      var more := Text(Rows(names[1..]), eol) + rest;
      assert Rows(names) == [Row(names[0])] + Rows(names[1..]);
      TextFirst(Row(names[0]), Rows(names[1..]), eol);
      assert Text(Rows(names), eol) + rest == Row(names[0]) + eol + more;
      SkipRow(names[0], eol, more);
    }
  }

  lemma NoText(eol: string)
    ensures Text([], eol) == ""
  {
  }

  lemma SkipTable(pre: seq<string>, names: seq<string>, mid: seq<string>, eol: string, rest: string)
    requires IsEol(eol) && forall i :: 0 <= i < |names| ==> IsName(names[i])
    requires (forall i :: 0 <= i < |pre| ==> Other(pre[i])) && (forall i :: 0 <= i < |mid| ==> Other(mid[i]))
    ensures FindHeader(Text(Table(pre, names, mid), eol) + rest) == FindHeader(rest)
  {
    hide FindHeader, Text;
    TextAppend(pre, Rows(names) + mid, eol);
    TextAppend(Rows(names), mid, eol);
    var c := Text(mid, eol) + rest;
    var b := Text(Rows(names), eol) + c;
    assert Text(Table(pre, names, mid), eol) + rest == Text(pre, eol) + b;
    SkipOthers(pre, eol, b);
    SkipRows(names, eol, c);
    SkipOthers(mid, eol, rest);
  }

  // ---------------------------------------------------------------------------
  // The list
  // ---------------------------------------------------------------------------

  lemma {:induction false} BlanksSkipped(n: nat, rest: seq<string>)
    requires rest != [] && Trim(rest[0]) != ""
    ensures SkipBlankLines(Blank(n) + rest) == rest
  {
    if n == 0 {
      assert Blank(n) + rest == rest;
    } else {
      BlanksSkipped(n - 1, rest);
      assert (Blank(n) + rest)[1..] == Blank(n - 1) + rest;
    }
  }

  lemma {:induction false} NamesTaken(names: seq<string>, rest: seq<string>)
    requires forall i :: 0 <= i < |names| ==> IsName(names[i])
    requires rest == [] || Trim(rest[0]) == ""
    ensures LeadingNames(names + rest) == names
  {
    if names == [] {
      assert names + rest == rest;
    } else {
      NamesTaken(names[1..], rest);
      TrimmedName(names[0]);
      assert (names + rest)[1..] == names[1..] + rest;
      assert names == [names[0]] + names[1..];
    }
  }

  lemma ListGivesNames(plural: bool, blanks: nat, names: seq<string>, post: seq<string>, eol: string)
    requires IsEol(eol) && names != [] && forall i :: 0 <= i < |names| ==> IsName(names[i])
    requires forall i :: 0 <= i < |post| ==> IsLine(post[i])
    ensures ListedNames(Text(List(plural, blanks, names, post), eol)) == names
  {
    hide *;
    var below := Blank(blanks) + (names + ([""] + post));
    ListIs(plural, blanks, names, post);
    ListDeclares(plural, List(plural, blanks, names, post), below, eol);
    NamesBelow(blanks, names, post, eol);
    ListedFrom(Text(List(plural, blanks, names, post), eol), eol + Text(below, eol));
  }

  lemma ListDeclares(plural: bool, lines: seq<string>, below: seq<string>, eol: string)
    requires IsEol(eol) && lines == [Header(plural)] + below
    ensures FindHeader(Text(lines, eol)) == Some(eol + Text(below, eol))
  {
    hide *;
    var rest := eol + Text(below, eol);
    TextFirst(Header(plural), below, eol);
    EolStarts(eol, Text(below, eol));
    assert Header(plural) + eol + Text(below, eol) == Header(plural) + rest;
    HeaderMatches(plural, rest);
  }

  lemma ListIs(plural: bool, blanks: nat, names: seq<string>, post: seq<string>)
    ensures List(plural, blanks, names, post) == [Header(plural)] + (Blank(blanks) + (names + ([""] + post)))
  {
  }

  lemma EolStarts(eol: string, rest: string)
    requires IsEol(eol)
    ensures eol + rest != "" && (eol + rest)[0] != ' ' && (eol + rest)[0] != '\t'
  {
  }

  lemma ListedFrom(text: string, rest: string)
    requires FindHeader(text) == Some(rest)
    ensures ListedNames(text) == LeadingNames(SkipBlankLines(Lines(rest)))
  {
  }

  lemma NamesBelow(blanks: nat, names: seq<string>, post: seq<string>, eol: string)
    requires IsEol(eol) && names != [] && forall i :: 0 <= i < |names| ==> IsName(names[i])
    requires forall i :: 0 <= i < |post| ==> IsLine(post[i])
    ensures LeadingNames(SkipBlankLines(Lines(eol + Text(Blank(blanks) + (names + ([""] + post)), eol)))) == names
  {
    hide *;
    LinesBelow(blanks, names, post, eol);
    EmptyIsNoName();
    NamesParsed(blanks + 1, names, [""] + (post + [""]));
  }

  lemma NamesParsed(blanks: nat, names: seq<string>, rest: seq<string>)
    requires names != [] && forall i :: 0 <= i < |names| ==> IsName(names[i])
    requires rest == [] || Trim(rest[0]) == ""
    ensures LeadingNames(SkipBlankLines(Blank(blanks) + (names + rest))) == names
  {
    hide *;
    FirstIsName(names, rest);
    BlanksSkipped(blanks, names + rest);
    NamesTaken(names, rest);
  }

  lemma LinesBelow(blanks: nat, names: seq<string>, post: seq<string>, eol: string)
    requires IsEol(eol) && forall i :: 0 <= i < |names| ==> IsName(names[i])
    requires forall i :: 0 <= i < |post| ==> IsLine(post[i])
    ensures Lines(eol + Text(Blank(blanks) + (names + ([""] + post)), eol))
            == Blank(blanks + 1) + (names + ([""] + (post + [""])))
  {
    hide *;
    var below := Blank(blanks) + (names + ([""] + post));
    BelowAreLines(blanks, names, post, below);
    LinesOfText(below, eol);
    EmptyIsNoName();
    FirstLine("", eol, Text(below, eol));
    assert "" + eol + Text(below, eol) == eol + Text(below, eol);
    OneBlankMore(blanks, names, post);
  }

  lemma FirstIsName(names: seq<string>, rest: seq<string>)
    requires names != [] && IsName(names[0])
    ensures (names + rest) != [] && Trim((names + rest)[0]) != ""
  {
  }

  lemma BelowAreLines(blanks: nat, names: seq<string>, post: seq<string>, below: seq<string>)
    requires forall i :: 0 <= i < |names| ==> IsName(names[i])
    requires forall i :: 0 <= i < |post| ==> IsLine(post[i])
    requires below == Blank(blanks) + (names + ([""] + post))
    ensures forall i :: 0 <= i < |below| ==> IsLine(below[i])
  {
  }

  lemma OneBlankMore(blanks: nat, names: seq<string>, post: seq<string>)
    ensures [""] + ((Blank(blanks) + (names + ([""] + post))) + [""])
            == Blank(blanks + 1) + (names + ([""] + (post + [""])))
  {
  }

  // ---------------------------------------------------------------------------
  // Round trip
  // ---------------------------------------------------------------------------

  lemma HeaderIsLine(plural: bool)
    ensures IsLine(Header(plural)) && !Contains(Lower(Header(plural)), "pending migration")
  {
    hide *;
    BeforeD(plural);
    var before := UpToD(plural);
    LowerHasNo(before);
    LowerAppend(before, "d:");
    NoPending(Lower(before), Lower("d:"));
  }

  function UpToD(plural: bool): string {
    Prefix(plural) + (HaveNot() + (YetBeen() + "applie"))
  }

  lemma BeforeD(plural: bool)
    ensures Header(plural) == UpToD(plural) + "d:" && IsLine(Header(plural))
    ensures 'd' !in UpToD(plural) && 'D' !in UpToD(plural)
  {
    hide Prefix, HaveNot, YetBeen;
    PrefixHas(plural);
    WordsHave();
    assert "applied" + ":" == "applie" + "d:";
  }

  lemma WordsHave()
    ensures 'd' !in HaveNot() && 'D' !in HaveNot() && '\n' !in HaveNot() && '\r' !in HaveNot()
    ensures 'd' !in YetBeen() && 'D' !in YetBeen() && '\n' !in YetBeen() && '\r' !in YetBeen()
  {
  }

  lemma PrefixHas(plural: bool)
    ensures 'd' !in Prefix(plural) && 'D' !in Prefix(plural) && '\n' !in Prefix(plural) && '\r' !in Prefix(plural)
  {
  }

  lemma LowerHasNo(s: string)
    requires 'd' !in s && 'D' !in s
    ensures 'd' !in Lower(s)
  {
  }

  /** The word has a d, with more behind it than there is text. */
  lemma {:induction false} NoPending(s: string, end: string)
    requires 'd' !in s && |end| == 2
    ensures !Contains(s + end, "pending migration")
  {
    var text := s + end;
    assert |text| >= 17 ==> text[..17][3] == s[3] && s[3] in s && "pending migration"[3] == 'd';
    assert !StartsWith(text, "pending migration");
    if s != "" {
      assert text[1..] == s[1..] + end;
      NoPending(s[1..], end);
    } else {
      assert !Contains(text[1..], "pending migration") by { assert |text[1..]| == 1; }
    }
  }

  lemma {:induction false} QuietLines(lines: seq<string>)
    requires forall i :: 0 <= i < |lines| ==> Other(lines[i])
    ensures RowNames(lines) == []
  {
    NoRowNames(lines);
  }

  lemma TableGivesNames(pre: seq<string>, names: seq<string>, mid: seq<string>, rest: seq<string>)
    requires forall i :: 0 <= i < |names| ==> IsName(names[i])
    requires (forall i :: 0 <= i < |pre| ==> Other(pre[i])) && (forall i :: 0 <= i < |mid| ==> Other(mid[i]))
    ensures RowNames(Table(pre, names, mid) + rest) == names + RowNames(rest)
  {
    hide RowNames;
    RowNamesAppend(Table(pre, names, mid), rest);
    RowNamesAppend(pre, Rows(names) + mid);
    RowNamesAppend(Rows(names), mid);
    QuietLines(pre);
    QuietLines(mid);
    RowsGiveNames(names);
  }

  lemma ListHasNoRows(plural: bool, blanks: nat, names: seq<string>, post: seq<string>)
    requires forall i :: 0 <= i < |names| ==> IsName(names[i])
    requires forall i :: 0 <= i < |post| ==> Other(post[i])
    ensures RowNames(List(plural, blanks, names, post) + [""]) == []
    ensures forall i :: 0 <= i < |List(plural, blanks, names, post)| ==> IsLine(List(plural, blanks, names, post)[i])
  {
    hide *;
    HeaderIsLine(plural);
    forall i | 0 <= i < |names| ensures IsLine(names[i]) && !Contains(Lower(names[i]), "pending migration") {
      NameChars(names[i]);
      NameIsNoRow(names[i]);
    }
    forall i | 0 <= i < |post| ensures IsLine(post[i]) && !Contains(Lower(post[i]), "pending migration") {
      OtherIsQuiet(post[i]);
    }
    EmptyIsNoName();
    ShortLine("");
    ListIs(plural, blanks, names, post);
    NoRowNames(List(plural, blanks, names, post) + [""]);
  }

  lemma OtherIsQuiet(l: string)
    requires Other(l)
    ensures IsLine(l) && !Contains(Lower(l), "pending migration")
  {
  }

  /**
    A report with a table and a list - either may be missing - gives back exactly
    the names it prints, sorted and each once.
   */
  lemma PendingRoundTrip(pre: seq<string>, rows: seq<string>, mid: seq<string>,
                         plural: bool, blanks: nat, names: seq<string>, post: seq<string>, eol: string)
    requires IsEol(eol)
    requires (forall i :: 0 <= i < |rows| ==> IsName(rows[i])) && (forall i :: 0 <= i < |names| ==> IsName(names[i]))
    requires (forall i :: 0 <= i < |pre| ==> Other(pre[i])) && (forall i :: 0 <= i < |mid| ==> Other(mid[i]))
    requires forall i :: 0 <= i < |post| ==> Other(post[i])
    ensures var below := if names == [] then post else List(plural, blanks, names, post);
            PendingFrom(Text(Table(pre, rows, mid) + below, eol)) == SortedSet(rows + names)
  {
    hide FindHeader, RowNames, Contains, LeadingNames, Text, SortedSet, SkipBlankLines;
    var below := if names == [] then post else List(plural, blanks, names, post);
    var table := Table(pre, rows, mid);
    var text := Text(table + below, eol);
    forall i | 0 <= i < |rows| ensures IsLine(Rows(rows)[i]) { NameChars(rows[i]); }
    ListHasNoRows(plural, blanks, names, post);
    LinesOfText(table + below, eol);
    assert table + below + [""] == table + (below + [""]);
    TableGivesNames(pre, rows, mid, below + [""]);
    TextAppend(table, below, eol);
    SkipTable(pre, rows, mid, eol, Text(below, eol));
    if names == [] {
      QuietEnd(post, eol);
    } else {
      ListGivesNames(plural, blanks, names, post, eol);
    }
    assert RowNames(Lines(text)) == rows;
    assert ListedNames(text) == names;
  }

  lemma QuietEnd(post: seq<string>, eol: string)
    requires IsEol(eol) && forall i :: 0 <= i < |post| ==> Other(post[i])
    ensures FindHeader(Text(post, eol)) == None && RowNames(post + [""]) == []
  {
    SkipOthers(post, eol, "");
    assert Text(post, eol) + "" == Text(post, eol);
    RowNamesAppend(post, [""]);
    QuietLines(post);
    assert RowName("") == None;
    assert RowNames([""]) == [];
  }

  /** A printed report with pending migrations stops the release, and names them unless there is drift. */
  lemma PendingNeverPasses(pre: seq<string>, rows: seq<string>, mid: seq<string>,
                           plural: bool, blanks: nat, names: seq<string>, post: seq<string>, eol: string)
    requires IsEol(eol) && rows + names != []
    requires (forall i :: 0 <= i < |rows| ==> IsName(rows[i])) && (forall i :: 0 <= i < |names| ==> IsName(names[i]))
    requires (forall i :: 0 <= i < |pre| ==> Other(pre[i])) && (forall i :: 0 <= i < |mid| ==> Other(mid[i]))
    requires forall i :: 0 <= i < |post| ==> Other(post[i])
    ensures var below := if names == [] then post else List(plural, blanks, names, post);
            var text := Text(Table(pre, rows, mid) + below, eol);
            var result := Evaluate(Some(text));
            && result.exitCode != 0
            && (!SaysDrift(text) ==>
                  result.exitCode == 1 && Ascending(result.pending)
                  && forall n :: n in result.pending <==> n in rows || n in names)
  {
    hide Text, PendingFrom, SaysDrift, SaysUpToDate, Other, IsName;
    PendingRoundTrip(pre, rows, mid, plural, blanks, names, post, eol);
    SortedSetIs(rows + names);
    assert (rows + names)[0] in rows + names;
  }

  // ---------------------------------------------------------------------------
  // Fail closed
  // ---------------------------------------------------------------------------

  /** Only positive evidence passes. */
  lemma PassesIff(output: Option<string>)
    ensures Evaluate(output).exitCode == 0 <==>
            output.Some? && SaysUpToDate(output.value) && !SaysDrift(output.value)
            && (forall l :: l in Lines(output.value) ==> RowName(l).None?) && ListedNames(output.value) == []
  {
    hide SaysUpToDate, SaysDrift, RowName, Lines, ListedNames;
    if output.Some? {
      var rows, listed := RowNames(Lines(output.value)), ListedNames(output.value);
      SortedSetIs(rows + listed);
      RowNamesEmptyIff(Lines(output.value));
      if rows + listed != [] { assert (rows + listed)[0] in rows + listed; }
    }
  }

  lemma {:induction false} RowNamesEmptyIff(lines: seq<string>)
    ensures RowNames(lines) == [] <==> forall l :: l in lines ==> RowName(l).None?
  {
    hide RowName;
    if lines != [] {
      RowNamesEmptyIff(lines[1..]);
      assert lines == [lines[0]] + lines[1..];
    }
  }

  /**
    A declaration with a line under it that is no name is refused - unless the same
    report also says that the schema is current: then, and only then, it passes.
   */
  lemma UnreadableDeclarationPassesIff(pre: seq<string>, plural: bool, blanks: nat, bad: string, post: seq<string>, eol: string)
    requires IsEol(eol) && Other(bad) && Trim(bad) != "" && !IsName(Trim(bad))
    requires (forall i :: 0 <= i < |pre| ==> Other(pre[i])) && (forall i :: 0 <= i < |post| ==> Other(post[i]))
    ensures var text := Text(pre + UnreadableList(plural, blanks, bad, post), eol);
            && FindHeader(text).Some? && PendingFrom(text) == []
            && (Evaluate(Some(text)).exitCode == 0 <==> SaysUpToDate(text) && !SaysDrift(text))
  {
    hide *;
    var list := UnreadableList(plural, blanks, bad, post);
    var below := Blank(blanks) + ([bad] + post);
    var text := Text(pre + list, eol);
    TextAppend(pre, list, eol);
    SkipOthers(pre, eol, Text(list, eol));
    UnreadableListIs(plural, blanks, bad, post);
    ListDeclares(plural, list, below, eol);
    ListedFrom(text, eol + Text(below, eol));
    BadStops(blanks, bad, post, eol);
    UnreadableRowsNone(pre, plural, blanks, bad, post, eol);
    NothingPending(text);
    VerdictWithoutNames(text);
  }

  function UnreadableList(plural: bool, blanks: nat, bad: string, post: seq<string>): seq<string> {
    [Header(plural)] + (Blank(blanks) + ([bad] + post))
  }

  lemma UnreadableListIs(plural: bool, blanks: nat, bad: string, post: seq<string>)
    ensures UnreadableList(plural, blanks, bad, post) == [Header(plural)] + (Blank(blanks) + ([bad] + post))
  {
  }

  lemma VerdictWithoutNames(text: string)
    requires PendingFrom(text) == []
    ensures Evaluate(Some(text)).exitCode == 0 <==> SaysUpToDate(text) && !SaysDrift(text)
  {
    hide PendingFrom, SaysUpToDate, SaysDrift;
  }

  /** Under the blank lines the list ends at once. */
  lemma BadStops(blanks: nat, bad: string, post: seq<string>, eol: string)
    requires IsEol(eol) && Other(bad) && Trim(bad) != "" && !IsName(Trim(bad))
    requires forall i :: 0 <= i < |post| ==> Other(post[i])
    ensures LeadingNames(SkipBlankLines(Lines(eol + Text(Blank(blanks) + ([bad] + post), eol)))) == []
  {
    hide *;
    var below := Blank(blanks) + ([bad] + post);
    EmptyIsNoName();
    OtherIsQuiet(bad);
    forall i | 0 <= i < |post| ensures IsLine(post[i]) { OtherIsQuiet(post[i]); }
    LinesOfText(below, eol);
    FirstLine("", eol, Text(below, eol));
    assert "" + eol + Text(below, eol) == eol + Text(below, eol);
    var tail := [bad] + (post + [""]);
    OneBlankAbove(blanks, bad, post);
    BlanksSkipped(blanks + 1, tail);
    NoLeadingName(tail);
  }

  lemma OneBlankAbove(blanks: nat, bad: string, post: seq<string>)
    ensures [""] + ((Blank(blanks) + ([bad] + post)) + [""]) == Blank(blanks + 1) + ([bad] + (post + [""]))
  {
  }

  lemma NoLeadingName(lines: seq<string>)
    requires lines != [] && !IsName(Trim(lines[0]))
    ensures LeadingNames(lines) == []
  {
  }

  lemma UnreadableRowsNone(pre: seq<string>, plural: bool, blanks: nat, bad: string, post: seq<string>, eol: string)
    requires IsEol(eol) && Other(bad)
    requires (forall i :: 0 <= i < |pre| ==> Other(pre[i])) && (forall i :: 0 <= i < |post| ==> Other(post[i]))
    ensures RowNames(Lines(Text(pre + UnreadableList(plural, blanks, bad, post), eol))) == []
  {
    hide *;
    var lines := pre + UnreadableList(plural, blanks, bad, post);
    UnreadableListIs(plural, blanks, bad, post);
    HeaderIsLine(plural);
    EmptyIsNoName();
    ShortLine("");
    OtherIsQuiet(bad);
    forall i | 0 <= i < |pre| ensures IsLine(pre[i]) && !Contains(Lower(pre[i]), "pending migration") { OtherIsQuiet(pre[i]); }
    forall i | 0 <= i < |post| ensures IsLine(post[i]) && !Contains(Lower(post[i]), "pending migration") { OtherIsQuiet(post[i]); }
    LinesOfText(lines, eol);
    NoRowNames(lines + [""]);
  }

  const CURRENT := "Database schema is up to date"

  lemma LowerOfCurrent()
    ensures Lower(CURRENT) == "database schema is up to date" && !Contains(Lower(CURRENT), "pending migration")
  {
    hide Lower, Contains;
    LowerAppend("D", "atabase schema is up to date");
    RestOfCurrent();
    AlreadyLower("atabase schema is up to date");
    assert Lower("D") == "d";
    NoG();
    if Contains("database schema is up to date", "pending migration") {
      ContainedChars("database schema is up to date", "pending migration", 'g');
    }
  }

  lemma RestOfCurrent()
    ensures CURRENT == "D" + "atabase schema is up to date"
    ensures "database schema is up to date" == "d" + "atabase schema is up to date"
  {
  }

  lemma NoG()
    ensures 'g' !in "database schema is up to date" && 'g' in "pending migration"
  {
  }

  /** With one f, at the very start and not before an a, none of the drift phrases fits. */
  lemma NoDrift(text: string)
    requires |Lower(text)| >= 2 && 'f' !in Lower(text)[1..] && Lower(text)[1] == 'o'
    ensures !SaysDrift(text)
  {
    hide Lower, Contains;
    var s := Lower(text);
    NoMarker(s, "drift detected", 3);
    NoMarker(s, "migration history is modified", 25);
    assert !StartsWith(s, "failed migration") by { assert "failed migration"[1] == 'a'; }
    NotContained(s, "failed migration", 0);
  }

  lemma NoMarker(s: string, m: string, k: nat)
    requires s != "" && 'f' !in s[1..] && 1 <= k < |m| && m[k] == 'f'
    ensures !Contains(s, m)
  {
  }

  lemma NotContained(s: string, m: string, k: nat)
    requires s != "" && 'f' !in s[1..] && k < |m| && m[k] == 'f' && !StartsWith(s, m)
    ensures !Contains(s, m)
  {
  }

  /** A declaration with a line that is no name under it, and then the claim that all is current. */
  function Unreadable(): string {
    Header(false) + ("\n" + ("?" + ("\n" + (CURRENT + "\n"))))
  }

  lemma UnreadableSaysNoDrift()
    ensures !SaysDrift(Unreadable()) && SaysUpToDate(Unreadable())
  {
    hide *;
    UnreadableLower();
    NoDrift(Unreadable());
    UpToDateInside();
  }

  function LowBody(): string {
    ("ollowing" + (" " + ("migration" + ("" + " ")))) + (HaveNot() + (YetBeen() + ("applied" + ":")))
  }

  lemma UnreadableLower()
    ensures |Lower(Unreadable())| >= 2 && 'f' !in Lower(Unreadable())[1..] && Lower(Unreadable())[1] == 'o'
  {
    hide *;
    var end := "\n" + ("?" + ("\n" + (CURRENT + "\n")));
    UnreadableSplit(end);
    BodyHasNoF(end);
    LowerAfterF(LowBody() + end);
    LowerAppend(LowBody(), end);
  }

  lemma LowerAfterF(rest: string)
    requires rest != "" && rest[0] == 'o'
    ensures Lower("F" + rest)[1..] == Lower(rest) && Lower("F" + rest)[1] == 'o'
  {
  }

  lemma UnreadableSplit(end: string)
    requires end == "\n" + ("?" + ("\n" + (CURRENT + "\n")))
    ensures Unreadable() == "F" + (LowBody() + end) && LowBody() + end != "" && (LowBody() + end)[0] == 'o'
  {
    hide HaveNot, YetBeen;
    assert "Following" == "F" + "ollowing";
  }

  lemma BodyHasNoF(end: string)
    requires end == "\n" + ("?" + ("\n" + (CURRENT + "\n")))
    ensures 'f' !in Lower(LowBody()) && 'f' !in Lower(end)
  {
    hide Lower;
    assert 'f' !in LowBody() && 'F' !in LowBody();
    assert 'f' !in end && 'F' !in end;
    LowerFree(LowBody());
    LowerFree(end);
  }

  lemma LowerFree(s: string)
    requires 'f' !in s && 'F' !in s
    ensures 'f' !in Lower(s)
  {
  }

  lemma UpToDateInside()
    ensures SaysUpToDate(Unreadable())
  {
    hide Lower, Contains, Header;
    var before := Header(false) + ("\n" + ("?" + "\n"));
    assert Unreadable() == before + (CURRENT + "\n");
    LowerAppend(before, CURRENT + "\n");
    LowerAppend(CURRENT, "\n");
    LowerOfCurrent();
    ContainsLater(Lower(before), "database schema is up to date", Lower("\n"));
  }

  /** So there is output that declares pending migrations and passes. */
  lemma UnreadableDeclarationPasses()
    ensures FindHeader(Unreadable()).Some? && Evaluate(Some(Unreadable())).exitCode == 0
  {
    hide *;
    UnreadableSaysNoDrift();
    UnreadableHasNoNames();
    VerdictWithoutNames(Unreadable());
  }

  lemma UnreadableHasNoNames()
    ensures FindHeader(Unreadable()).Some? && PendingFrom(Unreadable()) == []
  {
    hide *;
    var below := "?" + "\n" + (CURRENT + "\n" + "");
    UnreadableIs(below);
    HeaderMatches(false, "\n" + below);
    ListedFrom(Unreadable(), "\n" + below);
    UnreadableLines(below);
    UnreadableRows(below);
    NothingPending(Unreadable());
  }

  lemma UnreadableIs(below: string)
    requires below == "?" + "\n" + (CURRENT + "\n" + "")
    ensures Unreadable() == Header(false) + ("\n" + below) && Unreadable() == Header(false) + "\n" + below
    ensures "\n" + below != "" && ("\n" + below)[0] != ' ' && ("\n" + below)[0] != '\t'
  {
  }

  lemma NothingPending(text: string)
    requires RowNames(Lines(text)) == [] && ListedNames(text) == []
    ensures PendingFrom(text) == []
  {
  }

  lemma UnreadableLines(below: string)
    requires below == "?" + "\n" + (CURRENT + "\n" + "")
    ensures Lines(below) == ["?", CURRENT, ""]
    ensures LeadingNames(SkipBlankLines(Lines("\n" + below))) == []
  {
    hide Lines;
    FirstLine("?", "\n", CURRENT + "\n" + "");
    FirstLine(CURRENT, "\n", "");
    FirstLine("", "\n", below);
    assert "" + "\n" + below == "\n" + below;
    assert Lines("") == [""] by { LinesOfNothing(); }
    assert Trim("?") == "?" && !IsName("?");
  }

  lemma LinesOfNothing()
    ensures Lines("") == [""]
  {
  }

  lemma UnreadableRows(below: string)
    requires below == "?" + "\n" + (CURRENT + "\n" + "") && Unreadable() == Header(false) + "\n" + below
    requires Lines(below) == ["?", CURRENT, ""]
    ensures RowNames(Lines(Unreadable())) == []
  {
    hide Lines, Contains, Header, Lower;
    HeaderIsLine(false);
    FirstLine(Header(false), "\n", below);
    LowerOfCurrent();
    ShortLine("?");
    ShortLine("");
    NoRowNames(Lines(Unreadable()));
  }

  lemma ShortLine(s: string)
    requires |s| <= 1
    ensures !Contains(Lower(s), "pending migration")
  {
  }
}
