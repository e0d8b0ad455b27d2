/**
  Access and recharge cards: what is frozen onto a card when it is issued, what
  a stored card unlocks, and the transactions that consume, revoke and expire
  cards. A card is named by its normalised code; ids and empty strings read
  alike where the program tests them for truth, so both are `None` here.
 */
module CodesModel {
  import opened Options

  type Ms = int
  type CodeId = nat
  type UserId = nat
  type CourseId = nat
  type SectionId = nat
  type PartId = nat
  type BatchId = nat

  datatype Error = INVALID_CODE | CODE_NOT_RECHARGEABLE | CODE_ALREADY_USED | INVALID_STATE | NOT_FOUND | VALIDATION

  datatype Target = COURSE | SECTION | TEACHER | PART

  datatype Status = ACTIVE | EXHAUSTED | EXPIRED | REVOKED

  // ---------------------------------------------------------------------------
  // The catalogue and the frozen scope
  // ---------------------------------------------------------------------------

  datatype Course = Course(deleted: bool, archived: bool)
  datatype Section = Section(course: CourseId, part: Option<PartId>, deleted: bool)
  datatype Part = Part(course: CourseId, deleted: bool)

  datatype Catalogue = Catalogue(
    courses: map<CourseId, Course>, sections: map<SectionId, Section>, sectionOrder: seq<SectionId>,
    parts: map<PartId, Part>, teachers: set<UserId>, assignments: seq<(UserId, CourseId)>)

  /** What the issuing request names. */
  datatype Wanted = Wanted(course: Option<CourseId>, section: Option<SectionId>, teacher: Option<UserId>, part: Option<PartId>)

  /** What is copied onto each card of the batch. */
  datatype Frozen = Frozen(
    target: Target, course: Option<CourseId>, section: Option<SectionId>,
    sections: seq<SectionId>, courses: seq<CourseId>)

  predicate LivePartSection(cat: Catalogue, p: PartId, s: SectionId) {
    s in cat.sections && cat.sections[s].part == Some(p) && !cat.sections[s].deleted
  }

  predicate LiveCourseSection(cat: Catalogue, c: CourseId, s: SectionId) {
    s in cat.sections && cat.sections[s].course == c && !cat.sections[s].deleted
  }

  function Select(ids: seq<SectionId>, keep: SectionId -> bool): (r: seq<SectionId>)
    ensures forall s :: s in r <==> s in ids && keep(s)
  {
    if ids == [] then [] else (if keep(ids[0]) then [ids[0]] else []) + Select(ids[1..], keep)
  }

  predicate LiveTaught(cat: Catalogue, c: CourseId) {
    c in cat.courses && !cat.courses[c].deleted && !cat.courses[c].archived
  }

  function Taught(cat: Catalogue, assignments: seq<(UserId, CourseId)>, t: UserId): (r: seq<CourseId>)
    ensures forall c :: c in r <==> (t, c) in assignments && LiveTaught(cat, c)
  {
    if assignments == [] then []
    else
      (if assignments[0].0 == t && LiveTaught(cat, assignments[0].1) then [assignments[0].1] else [])
      + Taught(cat, assignments[1..], t)
  }

  function ResolveTarget(cat: Catalogue, target: Target, wanted: Wanted): Result<Frozen, Error> {
    match target
    case PART =>
      if wanted.part.None? then Err(VALIDATION)
      else if wanted.part.value !in cat.parts || cat.parts[wanted.part.value].deleted then Err(NOT_FOUND)
      else
        var course := cat.parts[wanted.part.value].course;
        var sections := Select(cat.sectionOrder, (s: SectionId) => LivePartSection(cat, wanted.part.value, s));
        if sections == [] then Err(VALIDATION)
        else Ok(Frozen(PART, Some(course), None, sections, [course]))
    case SECTION =>
      if wanted.section.None? then Err(VALIDATION)
      else if wanted.section.value !in cat.sections || cat.sections[wanted.section.value].deleted then Err(NOT_FOUND)
      else
        var course := cat.sections[wanted.section.value].course;
        Ok(Frozen(SECTION, Some(course), wanted.section, [wanted.section.value], [course]))
    case TEACHER =>
      if wanted.teacher.None? then Err(VALIDATION)
      else if wanted.teacher.value !in cat.teachers then Err(NOT_FOUND)
      else
        var courses := Taught(cat, cat.assignments, wanted.teacher.value);
        if courses == [] then Err(VALIDATION) else Ok(Frozen(TEACHER, None, None, [], courses))
    case COURSE =>
      if wanted.course.None? then Err(VALIDATION)
      else if wanted.course.value !in cat.courses || cat.courses[wanted.course.value].deleted then Err(NOT_FOUND)
      else
        var sections := Select(cat.sectionOrder, (s: SectionId) => LiveCourseSection(cat, wanted.course.value, s));
        Ok(Frozen(COURSE, wanted.course, None, sections, [wanted.course.value]))
  }

  /** What a redemption unlocks; no sections means all of them, now and later. */
  datatype Scope = Scope(courses: seq<CourseId>, sections: Option<seq<SectionId>>)

  /** `resolveRedemptionScope`. */
  function ResolveScope(f: Frozen, requested: CourseId): Result<Scope, Error> {
    var elsewhere := f.course.Some? && f.course.value != requested;
    match f.target
    case SECTION =>
      if f.section.None? || elsewhere then Err(INVALID_CODE) else Ok(Scope([requested], Some([f.section.value])))
    case PART =>
      if elsewhere || f.sections == [] then Err(INVALID_CODE) else Ok(Scope([requested], Some(f.sections)))
    case TEACHER =>
      if requested !in f.courses then Err(INVALID_CODE) else Ok(Scope(f.courses, None))
    case COURSE =>
      if elsewhere then Err(INVALID_CODE) else Ok(Scope([requested], None))
  }

  // ---------------------------------------------------------------------------
  // Cards
  // ---------------------------------------------------------------------------

  datatype Card = Card(
    recharge: bool, frozen: Frozen, status: Status, count: int, max: int,
    reservedFor: Option<UserId>, expiresAt: Option<Ms>, batch: Option<BatchId>, paid: Option<int>)

  datatype Redemption = Redemption(code: CodeId, user: UserId, course: Option<CourseId>)

  datatype Db = Db(cards: map<CodeId, Card>, redemptions: seq<Redemption>, revenue: seq<(CodeId, int)>)

  predicate Used(db: Db, id: CodeId, u: UserId) {
    exists i :: 0 <= i < |db.redemptions| && db.redemptions[i].code == id && db.redemptions[i].user == u
  }

  predicate Lapsed(card: Card, now: Ms) {
    card.expiresAt.Some? && card.expiresAt.value <= now
  }

  predicate ReservedForOther(card: Card, u: UserId) {
    card.reservedFor.Some? && card.reservedFor.value != u
  }

  /** The preview: what it refuses, in the order it looks. */
  function Validate(db: Db, id: CodeId, u: UserId, course: Option<CourseId>, now: Ms): Result<int, Error> {
    if id !in db.cards then Err(INVALID_CODE)
    else
      var card := db.cards[id];
      if card.recharge then Err(CODE_NOT_RECHARGEABLE)
      else if card.status == REVOKED || Lapsed(card, now) then Err(INVALID_CODE)
      else if card.count >= card.max then Err(CODE_ALREADY_USED)
      else if ReservedForOther(card, u) then Err(INVALID_CODE)
      else if course.Some? && card.frozen.course.Some? && card.frozen.course != course then Err(INVALID_CODE)
      else if Used(db, id, u) then Err(CODE_ALREADY_USED)
      else Ok(card.max - card.count)
  }

  function RedeemCheck(db: Db, id: CodeId, u: UserId, course: CourseId, now: Ms): Result<Scope, Error> {
    if id !in db.cards then Err(INVALID_CODE)
    else
      var card := db.cards[id];
      if card.recharge then Err(CODE_NOT_RECHARGEABLE)
      else if card.status == REVOKED || Lapsed(card, now) || ReservedForOther(card, u) then Err(INVALID_CODE)
      else
        var scope := ResolveScope(card.frozen, course);
        if scope.Err? then scope
        else if card.count >= card.max || Used(db, id, u) then Err(CODE_ALREADY_USED)
        else scope
  }

  /** A recharge is refused for the same reasons, EXPIRED included, and for missing amounts; it answers with the amount paid. */
  function RechargeCheck(db: Db, id: CodeId, u: UserId, now: Ms): Result<int, Error> {
    if id !in db.cards then Err(INVALID_CODE)
    else
      var card := db.cards[id];
      if !card.recharge then Err(CODE_NOT_RECHARGEABLE)
      else if card.status == REVOKED || card.status == EXPIRED || Lapsed(card, now) || ReservedForOther(card, u)
      then Err(INVALID_CODE)
      else if card.count >= card.max || Used(db, id, u) then Err(CODE_ALREADY_USED)
      else if card.paid.None? then Err(INVALID_CODE)
      else Ok(card.paid.value)
  }

  function Consumed(card: Card): Card {
    card.(count := card.count + 1, status := if card.count + 1 >= card.max then EXHAUSTED else card.status)
  }

  /** The redemption row and the counter, in one serializable transaction. */
  function Consume(db: Db, id: CodeId, u: UserId, course: Option<CourseId>): Db
    requires id in db.cards
  {
    db.(cards := db.cards[id := Consumed(db.cards[id])], redemptions := db.redemptions + [Redemption(id, u, course)])
  }

  function RechargeTx(db: Db, id: CodeId, u: UserId): Db
    requires id in db.cards && db.cards[id].paid.Some?
  {
    Consume(db, id, u, None).(revenue := db.revenue + [(id, db.cards[id].paid.value)])
  }

  /** A conditional update of every active card that `which` selects. */
  function Close(cards: map<CodeId, Card>, which: (CodeId, Card) -> bool, status: Status): map<CodeId, Card> {
    map id | id in cards ::
      if cards[id].status == ACTIVE && which(id, cards[id]) then cards[id].(status := status) else cards[id]
  }

  // ---------------------------------------------------------------------------
  // Steps
  // ---------------------------------------------------------------------------

  datatype Step =
    | Tick(now: Ms)
    | Issue(code: CodeId, card: Card)
    | Redeem(code: CodeId, user: UserId, course: CourseId)
    | Recharge(code: CodeId, user: UserId)
    | Revoke(code: CodeId)
    | RevokeBatch(batch: BatchId)
    | RevokeCourse(course: CourseId)
    | ExpireLapsed

  datatype State = State(db: Db, now: Ms)

  predicate Enabled(s: State, step: Step) {
    match step
    case Tick(t) => s.now <= t
    case Issue(id, card) => id !in s.db.cards && card.status == ACTIVE && card.count == 0
    case _ => true
  }

  /** A refused redemption changes nothing. */
  function Next(s: State, step: Step): State {
    match step
    case Tick(t) => s.(now := t)
    case Issue(id, card) => s.(db := s.db.(cards := s.db.cards[id := card]))
    case Redeem(id, u, c) =>
      if RedeemCheck(s.db, id, u, c, s.now).Ok? then s.(db := Consume(s.db, id, u, Some(c))) else s
    case Recharge(id, u) => if RechargeCheck(s.db, id, u, s.now).Ok? then s.(db := RechargeTx(s.db, id, u)) else s
    case Revoke(id) => s.(db := s.db.(cards := Close(s.db.cards, (i, card) => i == id, REVOKED)))
    case RevokeBatch(b) => s.(db := s.db.(cards := Close(s.db.cards, (i, card: Card) => card.batch == Some(b), REVOKED)))
    case RevokeCourse(c) =>
      s.(db := s.db.(cards := Close(s.db.cards, (i, card: Card) => card.frozen.course == Some(c), REVOKED)))
    case ExpireLapsed => s.(db := s.db.(cards := Close(s.db.cards, (i, card) => Lapsed(card, s.now), EXPIRED)))
  }

  ghost predicate Run(s: State, steps: seq<Step>, s': State)
    decreases |steps|
  {
    if steps == [] then s == s'
    else Enabled(s, steps[0]) && Run(Next(s, steps[0]), steps[1..], s')
  }

  ghost predicate Init(s: State) {
    s.db == Db(map[], [], [])
  }
}
