/**
  The migration gate: it reads what `prisma migrate status` printed, in either of
  two formats, and answers whether a build may be rolled. Case folding and white
  space are those of ASCII.
 */
module GateModel {
  import opened Options
  import opened StringOrder

  // ---------------------------------------------------------------------------
  // Text
  // ---------------------------------------------------------------------------

  const BAR: char := '\U{2502}'

  function LowerChar(c: char): char {
    if 'A' <= c <= 'Z' then (c as int + 32) as char else c
  }

  function Lower(s: string): (r: string)
    ensures |r| == |s| && forall i :: 0 <= i < |s| ==> r[i] == LowerChar(s[i])
  {
    if s == "" then "" else [LowerChar(s[0])] + Lower(s[1..])
  }

  predicate IsSpace(c: char) {
    c == ' ' || c == '\t' || c == '\n' || c == '\r' || c == '\U{b}' || c == '\U{c}'
  }

  function SkipSpace(s: string): string {
    if s != "" && IsSpace(s[0]) then SkipSpace(s[1..]) else s
  }

  function TrimEnd(s: string): string {
    if s != "" && IsSpace(s[|s| - 1]) then TrimEnd(s[..|s| - 1]) else s
  }

  function Trim(s: string): string {
    TrimEnd(SkipSpace(s))
  }

  predicate StartsWith(s: string, m: string) {
    |m| <= |s| && s[..|m|] == m
  }

  predicate Contains(s: string, m: string) {
    StartsWith(s, m) || (s != "" && Contains(s[1..], m))
  }

  /** `split(/\r?\n/)`. */
  function Lines(s: string): (r: seq<string>)
    ensures r != []
  {
    if s == "" then [""]
    else if s[0] == '\n' then [""] + Lines(s[1..])
    else if |s| >= 2 && s[0] == '\r' && s[1] == '\n' then [""] + Lines(s[2..])
    else
      var r := Lines(s[1..]);
      [[s[0]] + r[0]] + r[1..]
  }

  /** `split('│')`. */
  function Cells(s: string): (r: seq<string>)
    ensures r != []
  {
    if s == "" then [""]
    else if s[0] == BAR then [""] + Cells(s[1..])
    else
      var r := Cells(s[1..]);
      [[s[0]] + r[0]] + r[1..]
  }

  // ---------------------------------------------------------------------------
  // Names
  // ---------------------------------------------------------------------------

  predicate IsDigit(c: char) {
    '0' <= c <= '9'
  }

  /** `[\w-]` */
  predicate IsWord(c: char) {
    IsDigit(c) || 'a' <= c <= 'z' || 'A' <= c <= 'Z' || c == '_' || c == '-'
  }

  function DigitRun(s: string): (n: nat)
    ensures n <= |s|
    ensures forall i :: 0 <= i < n ==> IsDigit(s[i])
  {
    if s != "" && IsDigit(s[0]) then 1 + DigitRun(s[1..]) else 0
  }

  /** `^\d{8,}_[\w-]{1,120}$` */
  predicate IsName(s: string) {
    var d := DigitRun(s);
    && 8 <= d < |s| && s[d] == '_' && 1 <= |s| - d - 1 <= 120
    && forall i :: d < i < |s| ==> IsWord(s[i])
  }

  // ---------------------------------------------------------------------------
  // Pending names
  // ---------------------------------------------------------------------------

  function FindName(cells: seq<string>): Option<string> {
    if cells == [] then None
    else if IsName(Trim(cells[0])) then Some(Trim(cells[0]))
    else FindName(cells[1..])
  }

  function RowName(line: string): Option<string> {
    if Contains(Lower(line), "pending migration") then FindName(Cells(line)) else None
  }

  function RowNames(lines: seq<string>): seq<string> {
    if lines == [] then []
    else (if RowName(lines[0]).Some? then [RowName(lines[0]).value] else []) + RowNames(lines[1..])
  }

  /** One word of the header, in any case. */
  function Eat(s: Option<string>, w: string): Option<string> {
    if s.Some? && |w| <= |s.value| && Lower(s.value[..|w|]) == w then Some(s.value[|w|..]) else None
  }

  /** `\s+`, always followed by a letter. */
  function Gap(s: Option<string>): Option<string> {
    if s.Some? && s.value != "" && IsSpace(s.value[0]) then Some(SkipSpace(s.value[1..])) else None
  }

  function OptionalS(s: Option<string>): Option<string> {
    if Eat(s, "s").Some? then Eat(s, "s") else s
  }

  function SkipBlanks(s: string): string {
    if s != "" && (s[0] == ' ' || s[0] == '\t') then SkipBlanks(s[1..]) else s
  }

  /** The declaration at the start of `s`; what follows it. */
  function MatchHeader(s: string): Option<string> {
    var following := Gap(Eat(Some(s), "following"));
    var migrations := Gap(OptionalS(Eat(following, "migration")));
    var yet := Gap(Eat(Gap(Eat(Gap(Eat(migrations, "have")), "not")), "yet"));
    var applied := Eat(Gap(Eat(yet, "been")), "applied");
    match applied
    case None => None
    case Some(rest) => Some(SkipBlanks(if rest != "" && rest[0] == ':' then rest[1..] else rest))
  }

  /** The leftmost declaration. */
  function FindHeader(s: string): Option<string> {
    if MatchHeader(s).Some? then MatchHeader(s) else if s == "" then None else FindHeader(s[1..])
  }

  function SkipBlankLines(lines: seq<string>): seq<string> {
    if lines != [] && Trim(lines[0]) == "" then SkipBlankLines(lines[1..]) else lines
  }

  function LeadingNames(lines: seq<string>): seq<string> {
    if lines != [] && Trim(lines[0]) != "" && IsName(Trim(lines[0])) then [Trim(lines[0])] + LeadingNames(lines[1..])
    else []
  }

  function ListedNames(output: string): seq<string> {
    match FindHeader(output)
    case None => []
    case Some(rest) => LeadingNames(SkipBlankLines(Lines(rest)))
  }

  function PendingFrom(output: string): seq<string> {
    SortedSet(RowNames(Lines(output)) + ListedNames(output))
  }

  // ---------------------------------------------------------------------------
  // The verdict
  // ---------------------------------------------------------------------------

  datatype Verdict = UP_TO_DATE | UNAPPLIED | DRIFT | UNKNOWN

  datatype GateResult = GateResult(status: Verdict, pending: seq<string>, exitCode: int)

  predicate SaysDrift(output: string) {
    var lowered := Lower(output);
    Contains(lowered, "drift detected") || Contains(lowered, "failed migration")
    || Contains(lowered, "migration history is modified")
  }

  predicate SaysUpToDate(output: string) {
    var lowered := Lower(output);
    Contains(lowered, "database schema is up to date") || Contains(lowered, "database schema is in sync")
  }

  function Evaluate(output: Option<string>): GateResult {
    match output
    case None => GateResult(UNKNOWN, [], 2)
    case Some(text) =>
      if SaysDrift(text) then GateResult(DRIFT, [], 2)
      else if PendingFrom(text) != [] then GateResult(UNAPPLIED, PendingFrom(text), 1)
      else if SaysUpToDate(text) then GateResult(UP_TO_DATE, [], 0)
      else GateResult(UNKNOWN, [], 2)
  }

  // ---------------------------------------------------------------------------
  // The parser in its own form
  // ---------------------------------------------------------------------------

  method PendingRowsIn(output: string) returns (names: seq<string>)
    ensures names == RowNames(Lines(output))
  {
    hide Contains, Lower, FindName, Cells, Lines;
    names := [];
    var lines := Lines(output);
    for i := 0 to |lines|
      invariant RowNames(lines) == names + RowNames(lines[i..])
    {
      if Contains(Lower(lines[i]), "pending migration") {
        var name := FindName(Cells(lines[i]));
        if name.Some? { names := names + [name.value]; }
      }
    }
  }

  method PendingHeaderIn(output: string) returns (declared: bool, names: seq<string>)
    ensures declared == FindHeader(output).Some? && names == ListedNames(output)
  {
    hide FindHeader, Lines, SkipBlankLines, LeadingNames;
    var found := FindHeader(output);
    if found.None? {
      return false, [];
    }
    declared := true;
    var lines := ShiftBlanks(Lines(found.value));
    names := TakeNames(lines);
  }

  method ShiftBlanks(all: seq<string>) returns (lines: seq<string>)
    ensures lines == SkipBlankLines(all)
  {
    hide Trim;
    lines := all;
    while lines != [] && Trim(lines[0]) == ""
      invariant SkipBlankLines(lines) == SkipBlankLines(all)
      decreases |lines|
    {
      lines := lines[1..];
    }
  }

  method TakeNames(lines: seq<string>) returns (names: seq<string>)
    ensures names == LeadingNames(lines)
  {
    hide Trim, IsName;
    names := [];
    for i := 0 to |lines|
      invariant LeadingNames(lines) == names + LeadingNames(lines[i..])
    {
      var name := Trim(lines[i]);
      if name == "" || !IsName(name) { break; }
      names := names + [name];
    }
  }
}
