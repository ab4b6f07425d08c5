// What the adapter's two operations answer, told from the request, the hand and
// the library's judgement (cpp_engine/src/gb_mahjong_adapter.cc:363-373, 450-667).
module Outcomes {
  import opened Wrappers
  import opened Tiles
  import opened EngineProtocol
  import opened HandSpec
  import opened Settlement
  import opened Adapter

  // ---------- validation ----------

  /** The kind of action by number: a claim's is two above the claim's own, up to the exposed kong. */
  predicate ActionNumber(candidate: CandidateAction, number: int) {
    match candidate
    case CandidateDiscard(_, _) => number == 2
    case CandidateClaim(claim) =>
      if 1 <= claim.kind <= 3 then number == claim.kind + 2
      else if claim.kind == 4 || claim.kind == 5 then number == 8
      else number == 0
    case CandidateWin(_, _, _, _) => number == 8
    case CandidatePass(_) => number == 9
    case CandidateKong(kind, _, _, _, _) => number == kind
    case CandidateReplaceFlower => number == 10
    case NoCandidate => number == 0
  }

  /** A win, or a claim of kind 4 or 5. */
  predicate SaysWin(candidate: CandidateAction) {
    candidate.CandidateWin? || (candidate.CandidateClaim? && (candidate.claim.kind == 4 || candidate.claim.kind == 5))
  }

  /** The parts that are checked first, each with its own error. */
  predicate Blocked(v: ValidationRequest, error: Error) {
    if v.roomId == "" || v.matchId == "" || v.roundId == "" then error == BlankIds
    else if !(v.hasRuleConfig && v.hasRoundContext && v.hasCandidate) then error == MissingParts
    else if v.actorSeat == 0 then error == NoActorSeat
    else v.candidate.NoCandidate? && error == NoAction
  }

  /** The fans and the total of a hand, as an announcement or a settlement shows them. */
  ghost predicate FansTell(fan: Fan, details: seq<FanDetail>, total: uint32) {
    && total == fan.total + (if fan.total < 0 then 4_294_967_296 else 0)
    && (forall d :: d in details <==> 1 <= d.fan < 83 && d.count == fan.found[d.fan] && d.count != 0)
    && forall i, j | 0 <= i < j < |details| :: details[i].fan < details[j].fan
  }

  /**
   * A hand is seven pairs by fan 6 or 19, thirteen orphans by fan 7, and standard
   * by none of these nor of the two mixed forms, 20 and 34.
   */
  ghost predicate ContextTells(context: WinningContext, candidate: CandidateAction, fan: Fan) {
    && (context.sevenPairs <==> fan.found[6] != 0 || fan.found[19] != 0)
    && (context.thirteenOrphans <==> fan.found[7] != 0)
    && (context.standardHand <==>
          fan.found[6] == 0 && fan.found[7] == 0 && fan.found[19] == 0 && fan.found[20] == 0 && fan.found[34] == 0)
    && FansTell(fan, context.details, context.totalFan)
    && (candidate.CandidateWin? ==>
          context.winType == candidate.winType && context.winningTile == candidate.winningTile)
    && (candidate.CandidateClaim? ==>
          context.winType == (if candidate.claim.kind == 4 then 2 else 3) && context.winningTile == candidate.claim.target)
  }

  /** The consumed tiles and the claimed one, taken from the source; a chi, a peng or a kong by the claim's own number. */
  ghost predicate MeldTells(result: MeldResult, claim: ClaimAction) {
    && result.meld.kind == (if 1 <= claim.kind <= 3 then claim.kind else 0)
    && result.meld.tiles == claim.consume + [claim.target]
    && result.meld.fromSeat == claim.source && result.meld.claimedTile == claim.target
    && !result.meld.concealed && result.meld.sourceEventSeq == claim.sourceEventSeq
    && result.consumed == claim.consume && result.target == claim.target
  }

  /** A request that is refused as an invalid context, for an error. */
  predicate RefusesFor(outcome: ValidateOutcome, error: Error) {
    && !outcome.legal && outcome.rejectCode == 1 && outcome.error == Some(error)
    && outcome.meld.None? && outcome.context.None?
  }

  /** A win is legal if and only if its hand can be built and is judged to be one. */
  ghost predicate WinTells(engine: Engine, v: ValidationRequest, outcome: ValidateOutcome) {
    && outcome.actionKind == 8 && outcome.meld.None?
    && match ValidationHand(v)
       case Err(error) => RefusesFor(outcome, error)
       case Ok(hand) =>
         && outcome.error.None?
         && (outcome.legal <==> engine.judgeHu(hand))
         && outcome.rejectCode == (if outcome.legal then 0 else 5)
         && (outcome.context.Some? <==> outcome.legal)
         && (outcome.legal ==> ContextTells(outcome.context.value, v.candidate, engine.countFan(hand)))
  }

  /** Any other action is legal, and a claim comes with the meld it would make. */
  ghost predicate OtherTells(v: ValidationRequest, outcome: ValidateOutcome) {
    && outcome.legal && outcome.rejectCode == 0 && ActionNumber(v.candidate, outcome.actionKind)
    && outcome.error.None? && outcome.context.None?
    && (outcome.meld.Some? <==> v.candidate.CandidateClaim?)
    && (v.candidate.CandidateClaim? ==> MeldTells(outcome.meld.value, v.candidate.claim))
  }

  ghost predicate ValidationTells(engine: Engine, v: ValidationRequest, outcome: ValidateOutcome) {
    if exists error :: Blocked(v, error) then
      exists error :: Blocked(v, error) && RefusesFor(outcome, error) && outcome.actionKind == 0
    else if SaysWin(v.candidate) then WinTells(engine, v, outcome)
    else OtherTells(v, outcome)
  }

  lemma FansOf(fan: Fan)
    ensures FansTell(fan, Details(fan.found, FAN_SIZE), Unsigned(fan.total))
  {
    DetailsAre(fan.found, FAN_SIZE);
  }

  lemma WinOf(engine: Engine, v: ValidationRequest)
    requires SaysWin(v.candidate)
    ensures IsWinningAction(v.candidate) && WinTells(engine, v, ValidateWin(engine, v))
  {
    if ValidationHand(v).Ok? {
      FansOf(engine.countFan(ValidationHand(v).value));
    }
  }

  lemma BlockedIff(v: ValidationRequest, error: Error)
    ensures Blocked(v, error) <==> Precheck(v) == Some(error)
  {
  }

  /** Validation answers every request as its parts, its action and the library's judgement say. */
  lemma ValidateTells(engine: Engine, v: ValidationRequest)
    ensures ValidationTells(engine, v, Validate(engine, v))
  {
    forall error
      ensures Blocked(v, error) <==> Precheck(v) == Some(error)
    {
      BlockedIff(v, error);
    }
    if Precheck(v).Some? {
      assert Blocked(v, Precheck(v).value);
      assert RefusesFor(Validate(engine, v), Precheck(v).value);
    } else if SaysWin(v.candidate) {
      WinOf(engine, v);
    }
  }

  // ---------- scoring ----------

  /** The winner's hand: found, built from the request and judged to be a win. */
  ghost predicate Won(engine: Engine, s: ScoreRequest, winner: HandSnapshot, hand: Hand) {
    && s.hasRoundContext && s.hasRuleConfig && s.winnerSeat != 0
    && WinnerIs(s.hands, s.winnerSeat, winner) && ScoringHand(s, winner) == Ok(hand) && engine.judgeHu(hand)
  }

  lemma WonIff(engine: Engine, s: ScoreRequest, winner: HandSnapshot, hand: Hand)
    ensures Won(engine, s, winner, hand) <==> WinnerHand(s) == Ok(winner) && ScoringHand(s, winner) == Ok(hand)
                                              && JudgedHand(engine, s) == Ok(hand)
  {
    FindWinnerIff(s.hands, s.winnerSeat, winner);
  }

  /**
   * A request is scored if and only if the first hand that is flagged or in the
   * winner's seat can be built and is judged to be a win; and then every hand is
   * paid by that hand's fan, which are all listed.
   */
  lemma ScoreTells(engine: Engine, s: ScoreRequest)
    ensures Score(engine, s).Ok? <==> exists winner, hand :: Won(engine, s, winner, hand)
    ensures Score(engine, s).Ok? ==>
              exists winner, hand ::
                && Won(engine, s, winner, hand)
                && FansTell(engine.countFan(hand), Score(engine, s).value.details, Score(engine, s).value.totalFan)
                && AllPaid(s.winType, s.winnerSeat, s.discarderSeat, s.basePoints, engine.countFan(hand).total, s.hands,
                           Score(engine, s).value.rows)
                && Score(engine, s).value.flags == s.settlementFlags
  {
    forall winner, hand | Won(engine, s, winner, hand)
      ensures Score(engine, s).Ok?
    {
      WonIff(engine, s, winner, hand);
    }
    if Score(engine, s).Ok? {
      var winner, hand := WinnerHand(s).value, JudgedHand(engine, s).value;
      WonIff(engine, s, winner, hand);
      FansOf(engine.countFan(hand));
      SettlePays(s.winType, s.winnerSeat, s.discarderSeat, s.basePoints, engine.countFan(hand).total, s.hands);
    }
  }

  /**
   * On a discard win the hand in the winner's seat gains its fan, times the base
   * points if there are any, and the discarder's loses as much; on self-draw every
   * other hand loses that, and the winner's gains it from each.
   */
  lemma ScorePays(engine: Engine, s: ScoreRequest, winner: HandSnapshot, hand: Hand, i: nat)
    requires Won(engine, s, winner, hand) && i < |s.hands|
    ensures Score(engine, s).Ok? && |Score(engine, s).value.rows| == |s.hands|
    ensures Paid(s.winType, s.winnerSeat, s.discarderSeat, s.basePoints, engine.countFan(hand).total, |s.hands|,
                 s.hands[i], Score(engine, s).value.rows[i])
  {
    WonIff(engine, s, winner, hand);
    SettlePays(s.winType, s.winnerSeat, s.discarderSeat, s.basePoints, engine.countFan(hand).total, s.hands);
  }
}
