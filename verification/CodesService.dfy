/**
  The card service in its own form: tables updated in place, each call proved to
  be a run of the state machine of cards.
 */
module CodesService {
  import opened Options
  import opened CodesModel

  const MAX_BATCH := 5000

  /** What one batch puts on each of its cards besides the scope. */
  datatype Terms = Terms(max: int, reservedFor: Option<UserId>, expiresAt: Option<Ms>, batch: BatchId)

  function CardFor(f: Frozen, terms: Terms): Card {
    Card(false, f, ACTIVE, 0, terms.max, terms.reservedFor, terms.expiresAt, Some(terms.batch), None)
  }

  lemma {:induction false} RunSnoc(s: State, steps: seq<Step>, mid: State, step: Step)
    requires Run(s, steps, mid) && Enabled(mid, step)
    ensures Run(s, steps + [step], Next(mid, step))
    decreases |steps|
  {
    hide Next, Enabled;
    if steps == [] {
      assert [step][1..] == [] && steps + [step] == [step];
    } else {
      assert (steps + [step])[1..] == steps[1..] + [step];
      RunSnoc(Next(s, steps[0]), steps[1..], mid, step);
    }
  }

  class CodesService {
    var cards: map<CodeId, Card>
    var redemptions: seq<Redemption>
    var revenue: seq<(CodeId, int)>
    var batches: set<BatchId>
    var now: Ms

    constructor (now: Ms)
      ensures Init(Abs()) && batches == {}
    {
      cards, redemptions, revenue, batches, this.now := map[], [], [], {}, now;
    }

    function Tables(): Db
      reads this
    {
      Db(cards, redemptions, revenue)
    }

    function Abs(): State
      reads this
    {
      State(Tables(), now)
    }

    predicate AlreadyUsed(id: CodeId, u: UserId)
      reads this
    {
      Used(Tables(), id, u)
    }

    /** Refusals come in the order the program looks; the counter and the row are written together. */
    method RedeemInTransaction(id: CodeId, u: UserId, course: CourseId) returns (answer: Result<Scope, Error>)
      modifies this`cards, this`redemptions
      ensures answer == RedeemCheck(old(Tables()), id, u, course, now)
      ensures Abs() == Next(old(Abs()), Redeem(id, u, course))
    {
      if id !in cards {
        return Err(INVALID_CODE);
      }
      var card := cards[id];
      if card.recharge {
        return Err(CODE_NOT_RECHARGEABLE);
      }
      if card.status == REVOKED || Lapsed(card, now) || ReservedForOther(card, u) {
        return Err(INVALID_CODE);
      }
      answer := ResolveScope(card.frozen, course);
      if answer.Err? {
        return;
      }
      if card.count >= card.max || AlreadyUsed(id, u) {
        return Err(CODE_ALREADY_USED);
      }
      redemptions := redemptions + [Redemption(id, u, Some(course))];
      var next := card.count + 1;
      cards := cards[id := card.(count := next, status := if next >= card.max then EXHAUSTED else card.status)];
    }

    /** The amount comes from the card; what is refused leaves no trace. */
    method RedeemRechargeCode(id: CodeId, u: UserId) returns (answer: Result<int, Error>)
      modifies this`cards, this`redemptions, this`revenue
      ensures answer == RechargeCheck(old(Tables()), id, u, now)
      ensures Abs() == Next(old(Abs()), Recharge(id, u))
    {
      if id !in cards {
        return Err(INVALID_CODE);
      }
      var card := cards[id];
      if !card.recharge {
        return Err(CODE_NOT_RECHARGEABLE);
      }
      if card.status == REVOKED || card.status == EXPIRED || Lapsed(card, now) || ReservedForOther(card, u) {
        return Err(INVALID_CODE);
      }
      if card.count >= card.max || AlreadyUsed(id, u) {
        return Err(CODE_ALREADY_USED);
      }
      if card.paid.None? {
        return Err(INVALID_CODE);
      }
      redemptions := redemptions + [Redemption(id, u, None)];
      cards := cards[id := Consumed(card)];
      revenue := revenue + [(id, card.paid.value)];
      return Ok(card.paid.value);
    }

    /** The read that comes before a revocation: a card in another status is refused here. */
    method ReadForRevoke(id: CodeId) returns (answer: Result<Status, Error>)
      ensures answer.Ok? <==> id in cards && cards[id].status == ACTIVE
      ensures answer == Err(NOT_FOUND) <==> id !in cards
    {
      if id !in cards {
        return Err(NOT_FOUND);
      }
      return if cards[id].status == ACTIVE then Ok(ACTIVE) else Err(INVALID_STATE);
    }

    /** The conditional update: it changes the card only if it is still active. */
    method CommitRevoke(id: CodeId) returns (revoked: bool)
      modifies this`cards
      ensures Abs() == Next(old(Abs()), Revoke(id))
      ensures revoked <==> id in old(cards) && old(cards)[id].status == ACTIVE
    {
      revoked := id in cards && cards[id].status == ACTIVE;
      if revoked {
        cards := cards[id := cards[id].(status := REVOKED)];
      }
      assert cards == Close(old(cards), (i, card) => i == id, REVOKED);
    }

    /** An unknown batch is an error, not an empty success. */
    method RevokeBatch(b: BatchId) returns (answer: Result<nat, Error>)
      modifies this`cards
      ensures answer.Err? <==> b !in batches
      ensures answer.Err? ==> answer.error == NOT_FOUND && cards == old(cards)
      ensures answer.Ok? ==> Abs() == Next(old(Abs()), Step.RevokeBatch(b))
      ensures answer.Ok? ==> answer.value == |set id | id in old(cards) && cards[id] != old(cards)[id]|
    {
      if b !in batches {
        return Err(NOT_FOUND);
      }
      var hit := set id | id in cards && cards[id].status == ACTIVE && cards[id].batch == Some(b);
      cards := Close(cards, (i, card: Card) => card.batch == Some(b), REVOKED);
      assert hit == set id | id in old(cards) && cards[id] != old(cards)[id];
      return Ok(|hit|);
    }

    method ExpireLapsedCodes() returns (count: nat)
      modifies this`cards
      ensures Abs() == Next(old(Abs()), ExpireLapsed)
      ensures count == |set id | id in old(cards) && cards[id] != old(cards)[id]|
    {
      var t := now;
      var hit := set id | id in cards && cards[id].status == ACTIVE && Lapsed(cards[id], t);
      count := |hit|;
      cards := Close(cards, (i, card) => Lapsed(card, t), EXPIRED);
      assert hit == set id | id in old(cards) && cards[id] != old(cards)[id];
    }

    /**
      Inserts the candidates, skipping those that are already someone's card. All
      candidates are handed back, so the list holds only this batch's cards
      exactly when as many were created as were asked for.
     */
    method GenerateBatch(cat: Catalogue, target: Target, wanted: Wanted, terms: Terms, candidates: seq<CodeId>)
      returns (answer: Result<nat, Error>, ghost steps: seq<Step>)
      requires forall i, j :: 0 <= i < j < |candidates| ==> candidates[i] != candidates[j]
      modifies this`cards, this`batches
      ensures batches == if answer.Ok? then old(batches) + {terms.batch} else old(batches)
      ensures answer.Ok? <==> 1 <= |candidates| <= MAX_BATCH && ResolveTarget(cat, target, wanted).Ok?
      ensures answer.Err? ==> Abs() == old(Abs())
      ensures Run(old(Abs()), steps, Abs())
      ensures answer.Ok? ==>
                && (forall id :: id in cards <==> id in old(cards) || id in candidates)
                && (forall id :: id in cards ==>
                      cards[id] == if id in old(cards) then old(cards)[id]
                                   else CardFor(ResolveTarget(cat, target, wanted).value, terms))
      ensures answer.Ok? ==> (answer.value == |candidates| <==> forall id :: id in candidates ==> id !in old(cards))
    {
      hide Next;
      steps := [];
      ghost var start := Abs();
      if |candidates| < 1 || |candidates| > MAX_BATCH {
        return Err(VALIDATION), steps;
      }
      var target := ResolveTarget(cat, target, wanted);
      if target.Err? {
        return Err(target.error), steps;
      }
      var card := CardFor(target.value, terms);
      batches := batches + {terms.batch};
      var created := 0;
      for i := 0 to |candidates|
        invariant created <= i && (created == i <==> forall id :: id in candidates[..i] ==> id !in old(cards))
        invariant Run(start, steps, Abs()) && batches == old(batches) + {terms.batch}
        invariant forall id :: id in cards <==> id in old(cards) || id in candidates[..i]
        invariant forall id :: id in cards ==> cards[id] == if id in old(cards) then old(cards)[id] else card
      {
        var id := candidates[i];
        assert candidates[..i + 1] == candidates[..i] + [id];
        if id !in cards {
          RunSnoc(start, steps, Abs(), Issue(id, card));
          steps := steps + [Issue(id, card)];
          NextIsIssue(Abs(), id, card);
          cards := cards[id := card];
          created := created + 1;
        }
      }
      assert candidates[..|candidates|] == candidates;
      answer := Ok(created);
    }
  }

  lemma NextIsIssue(s: State, id: CodeId, card: Card)
    requires Enabled(s, Issue(id, card))
    ensures Next(s, Issue(id, card)) == s.(db := s.db.(cards := s.db.cards[id := card]))
  {
  }
}
