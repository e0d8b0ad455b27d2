/**
  What holds of cards in every run of issuing, redeeming, recharging, revoking
  and expiring, and what an issued card unlocks.
 */
module CodesTheorems {
  import opened Options
  import opened CodesModel

  // ---------------------------------------------------------------------------
  // The invariant
  // ---------------------------------------------------------------------------

  function Rows(redemptions: seq<Redemption>, id: CodeId): nat {
    if redemptions == [] then 0
    else Rows(redemptions[..|redemptions| - 1], id) + if redemptions[|redemptions| - 1].code == id then 1 else 0
  }

  /** Number and amount of a card's revenue rows. */
  function Sales(revenue: seq<(CodeId, int)>, id: CodeId): nat {
    if revenue == [] then 0
    else Sales(revenue[..|revenue| - 1], id) + if revenue[|revenue| - 1].0 == id then 1 else 0
  }

  function Takings(revenue: seq<(CodeId, int)>, id: CodeId): int {
    if revenue == [] then 0
    else Takings(revenue[..|revenue| - 1], id) + if revenue[|revenue| - 1].0 == id then revenue[|revenue| - 1].1 else 0
  }

  ghost predicate CardOk(s: State, id: CodeId)
    requires id in s.db.cards
  {
    var card := s.db.cards[id];
    && card.count == Rows(s.db.redemptions, id)
    && (card.count == 0 || card.count <= card.max)
    && (card.status == EXHAUSTED ==> card.count >= card.max)
    && (card.status == EXPIRED ==> Lapsed(card, s.now))
    && Sales(s.db.revenue, id) == (if card.recharge then card.count else 0)
    && (card.paid.Some? ==> Takings(s.db.revenue, id) == Times(Sales(s.db.revenue, id), card.paid.value))
  }

  function Times(n: nat, amount: int): int {
    n * amount
  }

  lemma TimesMore(n: nat, amount: int)
    ensures Times(0, amount) == 0 && Times(n + 1, amount) == Times(n, amount) + amount
  {
  }

  ghost predicate RowsOk(db: Db) {
    && (forall i :: 0 <= i < |db.redemptions| ==> db.redemptions[i].code in db.cards)
    && (forall i :: 0 <= i < |db.revenue| ==> db.revenue[i].0 in db.cards)
    && (forall i, j :: 0 <= i < j < |db.redemptions| ==>
          db.redemptions[i].code != db.redemptions[j].code || db.redemptions[i].user != db.redemptions[j].user)
  }

  ghost predicate Inv(s: State) {
    RowsOk(s.db) && forall id :: id in s.db.cards ==> CardOk(s, id)
  }

  lemma {:induction false} NoRows(redemptions: seq<Redemption>, id: CodeId)
    requires forall i :: 0 <= i < |redemptions| ==> redemptions[i].code != id
    ensures Rows(redemptions, id) == 0
  {
    if redemptions != [] { NoRows(redemptions[..|redemptions| - 1], id); }
  }

  lemma {:induction false} NoSales(revenue: seq<(CodeId, int)>, id: CodeId)
    requires forall i :: 0 <= i < |revenue| ==> revenue[i].0 != id
    ensures Sales(revenue, id) == 0 && Takings(revenue, id) == 0
  {
    if revenue != [] { NoSales(revenue[..|revenue| - 1], id); }
  }

  lemma OneRowMore(rows: seq<Redemption>, row: Redemption, id: CodeId)
    ensures Rows(rows + [row], id) == Rows(rows, id) + if row.code == id then 1 else 0
  {
  }

  lemma OneSaleMore(rows: seq<(CodeId, int)>, row: (CodeId, int), id: CodeId)
    ensures Sales(rows + [row], id) == Sales(rows, id) + if row.0 == id then 1 else 0
    ensures Takings(rows + [row], id) == Takings(rows, id) + if row.0 == id then row.1 else 0
  {
  }

  lemma RowsStep(s: State, step: Step)
    requires RowsOk(s.db) && Enabled(s, step)
    ensures RowsOk(Next(s, step).db)
  {
  }

  /** The one step that concerns card `id` may change its status, or count one redemption of it. */
  lemma CardStep(s: State, step: Step, id: CodeId)
    requires Inv(s) && Enabled(s, step) && id in s.db.cards
    ensures id in Next(s, step).db.cards && CardOk(Next(s, step), id)
  {
    hide CardOk, RowsOk, Next;
    match step {
      case Redeem(c, u, course) => RedeemKeepsCard(s, c, u, course, id);
      case Recharge(c, u) => RechargeKeepsCard(s, c, u, id);
      case _ => ClosingKeepsCard(s, step, id);
    }
  }

  lemma RedeemKeepsCard(s: State, c: CodeId, u: UserId, course: CourseId, id: CodeId)
    requires id in s.db.cards && CardOk(s, id)
    ensures var s' := Next(s, Redeem(c, u, course)); id in s'.db.cards && CardOk(s', id)
  {
  }

  lemma RechargeKeepsCard(s: State, c: CodeId, u: UserId, id: CodeId)
    requires id in s.db.cards && CardOk(s, id)
    ensures var s' := Next(s, Recharge(c, u)); id in s'.db.cards && CardOk(s', id)
  {
    hide ReservedForOther, Times, Rows, Sales, Takings;
    OneRowMore(s.db.redemptions, Redemption(c, u, None), id);
    if c in s.db.cards && s.db.cards[c].paid.Some? {
      OneSaleMore(s.db.revenue, (c, s.db.cards[c].paid.value), id);
      TimesMore(Sales(s.db.revenue, id), s.db.cards[c].paid.value);
    }
  }

  lemma ClosingKeepsCard(s: State, step: Step, id: CodeId)
    requires Enabled(s, step) && !step.Redeem? && !step.Recharge? && id in s.db.cards && CardOk(s, id)
    ensures id in Next(s, step).db.cards && CardOk(Next(s, step), id)
  {
  }

  lemma NewCard(s: State, step: Step, id: CodeId)
    requires Inv(s) && Enabled(s, step) && id !in s.db.cards && id in Next(s, step).db.cards
    ensures CardOk(Next(s, step), id)
  {
    hide ResolveScope, ReservedForOther, Times, Rows, Sales, Takings;
    assert step.Issue? && RowsOk(s.db);
    NoRows(s.db.redemptions, id);
    NoSales(s.db.revenue, id);
    assert step.card.paid.Some? ==> Times(0, step.card.paid.value) == 0 by {
      if step.card.paid.Some? { TimesMore(0, step.card.paid.value); }
    }
  }

  lemma StepKeeps(s: State, step: Step)
    requires Inv(s) && Enabled(s, step)
    ensures Inv(Next(s, step))
  {
    hide Next, Enabled, CardOk, RowsOk;
    RowsStep(s, step);
    forall id | id in Next(s, step).db.cards ensures CardOk(Next(s, step), id) {
      if id in s.db.cards { CardStep(s, step, id); } else { NewCard(s, step, id); }
    }
  }

  lemma {:induction false} RunKeeps(s: State, steps: seq<Step>, s': State)
    requires Inv(s) && Run(s, steps, s')
    ensures Inv(s')
    decreases |steps|
  {
    hide Inv, Next, Enabled;
    if steps != [] {
      StepKeeps(s, steps[0]);
      RunKeeps(Next(s, steps[0]), steps[1..], s');
    }
  }

  lemma ReachableInv(s0: State, steps: seq<Step>, s: State)
    requires Init(s0) && Run(s0, steps, s)
    ensures Inv(s)
  {
    hide Next, Enabled;
    assert Inv(s0) by { hide *; InitInv(s0); }
    RunKeeps(s0, steps, s);
  }

  lemma InitInv(s: State)
    requires Init(s)
    ensures Inv(s)
  {
  }

  // ---------------------------------------------------------------------------
  // Over whole runs
  // ---------------------------------------------------------------------------

  /** The counter is the number of redemption rows, never above the maximum, and no student appears twice. */
  lemma NeverOversold(s0: State, steps: seq<Step>, s: State, id: CodeId)
    requires Init(s0) && Run(s0, steps, s) && id in s.db.cards
    ensures var card := s.db.cards[id];
            card.count == Rows(s.db.redemptions, id) && (card.count == 0 || card.count <= card.max)
    ensures forall i, j :: 0 <= i < j < |s.db.redemptions| && s.db.redemptions[i].code == s.db.redemptions[j].code ==>
              s.db.redemptions[i].user != s.db.redemptions[j].user
  {
    ReachableInv(s0, steps, s);
    assert CardOk(s, id);
  }

  /** Recharge cards book what was paid, once per redemption; access cards never do. */
  lemma RevenueFollowsRedemptions(s0: State, steps: seq<Step>, s: State, id: CodeId)
    requires Init(s0) && Run(s0, steps, s) && id in s.db.cards
    ensures var card := s.db.cards[id];
            && (!card.recharge ==> Sales(s.db.revenue, id) == 0)
            && (card.recharge && card.paid.Some? ==>
                  Takings(s.db.revenue, id) == Times(Rows(s.db.redemptions, id), card.paid.value))
  {
    ReachableInv(s0, steps, s);
    assert CardOk(s, id);
  }

  /** Only REVOKED is tested, and still every redemption starts from ACTIVE. */
  lemma RedeemedFromActive(s0: State, steps: seq<Step>, s: State, id: CodeId, u: UserId, c: CourseId)
    requires Init(s0) && Run(s0, steps, s) && RedeemCheck(s.db, id, u, c, s.now).Ok?
    ensures s.db.cards[id].status == ACTIVE
  {
    ReachableInv(s0, steps, s);
    assert CardOk(s, id);
  }

  lemma RechargedFromActive(s0: State, steps: seq<Step>, s: State, id: CodeId, u: UserId)
    requires Init(s0) && Run(s0, steps, s) && RechargeCheck(s.db, id, u, s.now).Ok?
    ensures s.db.cards[id].status == ACTIVE
  {
    ReachableInv(s0, steps, s);
    assert CardOk(s, id);
  }

  lemma ClosedStep(s: State, step: Step, id: CodeId)
    requires Inv(s) && Enabled(s, step) && id in s.db.cards && s.db.cards[id].status != ACTIVE
    ensures id in Next(s, step).db.cards && Next(s, step).db.cards[id] == s.db.cards[id]
  {
  }

  /** A card that stopped being active stays exactly as it is: its status changes once in its life. */
  lemma {:induction false} ClosedForGood(s: State, steps: seq<Step>, s': State, id: CodeId)
    requires Inv(s) && Run(s, steps, s') && id in s.db.cards && s.db.cards[id].status != ACTIVE
    ensures id in s'.db.cards && s'.db.cards[id] == s.db.cards[id]
    decreases |steps|
  {
    hide Inv, Next, Enabled;
    if steps != [] {
      StepKeeps(s, steps[0]);
      ClosedStep(s, steps[0], id);
      ClosedForGood(Next(s, steps[0]), steps[1..], s', id);
    }
  }

  /** What a card unlocks, its maximum and its price never change, and no redemption is taken back. */
  lemma {:induction false} FrozenForGood(s: State, steps: seq<Step>, s': State, id: CodeId)
    requires Run(s, steps, s') && id in s.db.cards
    ensures id in s'.db.cards
    ensures s'.db.cards[id] == s.db.cards[id].(status := s'.db.cards[id].status, count := s'.db.cards[id].count)
    ensures s.db.redemptions <= s'.db.redemptions && s.db.revenue <= s'.db.revenue
    decreases |steps|
  {
    hide Next, Enabled;
    if steps != [] {
      FrozenStep(s, steps[0], id);
      FrozenForGood(Next(s, steps[0]), steps[1..], s', id);
    }
  }

  lemma FrozenStep(s: State, step: Step, id: CodeId)
    requires Enabled(s, step) && id in s.db.cards
    ensures var s' := Next(s, step);
            && id in s'.db.cards
            && s'.db.cards[id] == s.db.cards[id].(status := s'.db.cards[id].status, count := s'.db.cards[id].count)
            && s.db.redemptions <= s'.db.redemptions && s.db.revenue <= s'.db.revenue
  {
  }

  // ---------------------------------------------------------------------------
  // What a card unlocks
  // ---------------------------------------------------------------------------

  /**
    A card redeems against exactly the courses frozen on it. A section or part
    card gives exactly its frozen sections; a course or teacher card gives whole
    courses. The catalogue is not asked again.
   */
  lemma CardUnlocksWhatWasFrozen(cat: Catalogue, target: Target, wanted: Wanted, c: CourseId)
    requires ResolveTarget(cat, target, wanted).Ok?
    ensures var f := ResolveTarget(cat, target, wanted).value;
            && (ResolveScope(f, c).Ok? <==> c in f.courses)
            && (ResolveScope(f, c).Ok? ==>
                  var scope := ResolveScope(f, c).value;
                  && (forall d :: d in scope.courses <==> if target == TEACHER then d in f.courses else d == c)
                  && scope.sections == (if target.SECTION? || target.PART? then Some(f.sections) else None))
  {
  }

  /** An issued card unlocks something, and only what was live and asked for on the day. */
  lemma IssuedScopeIsLive(cat: Catalogue, target: Target, wanted: Wanted)
    requires ResolveTarget(cat, target, wanted).Ok?
    ensures var f := ResolveTarget(cat, target, wanted).value;
            && f.courses != [] && (target.SECTION? || target.PART? ==> f.sections != [])
            && (target == TEACHER ==>
                  forall c :: c in f.courses <==> (wanted.teacher.value, c) in cat.assignments && LiveTaught(cat, c))
            && (target == PART ==>
                  forall s :: s in f.sections <==> s in cat.sectionOrder && LivePartSection(cat, wanted.part.value, s))
            && (target == COURSE ==>
                  wanted.course == f.course && !cat.courses[f.course.value].deleted
                  && forall s :: s in f.sections <==> s in cat.sectionOrder && LiveCourseSection(cat, f.course.value, s))
            && (target == SECTION ==> f.sections == [wanted.section.value] && LiveCourseSection(cat, f.course.value, wanted.section.value))
  {
  }

  /** Exactly when issuing is refused. */
  lemma IssueRefusedIff(cat: Catalogue, target: Target, wanted: Wanted)
    ensures ResolveTarget(cat, target, wanted).Err? <==>
            match target
            case COURSE => wanted.course.None? || wanted.course.value !in cat.courses || cat.courses[wanted.course.value].deleted
            case SECTION => wanted.section.None? || wanted.section.value !in cat.sections || cat.sections[wanted.section.value].deleted
            case TEACHER =>
              wanted.teacher.None? || wanted.teacher.value !in cat.teachers
              || forall c :: (wanted.teacher.value, c) in cat.assignments ==> !LiveTaught(cat, c)
            case PART =>
              wanted.part.None? || wanted.part.value !in cat.parts || cat.parts[wanted.part.value].deleted
              || forall s :: s in cat.sectionOrder ==> !LivePartSection(cat, wanted.part.value, s)
  {
    match target {
      case TEACHER =>
        if wanted.teacher.Some? {
          var courses := Taught(cat, cat.assignments, wanted.teacher.value);
          assert courses == [] <==> forall c :: c !in courses by { if courses != [] { assert courses[0] in courses; } }
        }
      case PART =>
        if wanted.part.Some? {
          var sections := Select(cat.sectionOrder, (s: SectionId) => LivePartSection(cat, wanted.part.value, s));
          assert sections == [] <==> forall s :: s !in sections by { if sections != [] { assert sections[0] in sections; } }
        }
      case _ =>
    }
  }

  // ---------------------------------------------------------------------------
  // The preview against the redemption
  // ---------------------------------------------------------------------------

  /**
    A redemption that would go through is previewed as valid, unless a teacher
    card also names another course; issuing never makes such a card.
   */
  lemma RedeemIffPreview(db: Db, id: CodeId, u: UserId, c: CourseId, now: Ms)
    requires id in db.cards
    ensures var f := db.cards[id].frozen;
            RedeemCheck(db, id, u, c, now).Ok? && (f.course.None? || f.course == Some(c)) <==>
            Validate(db, id, u, Some(c), now).Ok? && ResolveScope(f, c).Ok?
  {
  }

  /**
    For an issued card the preview is exact except for teacher cards, which it
    accepts in front of every course: there a redemption follows exactly when the
    course is frozen on the card.
   */
  lemma PreviewIsExactIff(db: Db, id: CodeId, u: UserId, c: CourseId, now: Ms, cat: Catalogue, target: Target, wanted: Wanted)
    requires id in db.cards && ResolveTarget(cat, target, wanted) == Ok(db.cards[id].frozen)
    requires Validate(db, id, u, Some(c), now).Ok?
    ensures RedeemCheck(db, id, u, c, now).Ok? <==> target != TEACHER || c in db.cards[id].frozen.courses
  {
  }
}
