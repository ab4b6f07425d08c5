// The adapter's two operations (cpp_engine/src/gb_mahjong_adapter.cc:469-667).
module Adapter {
  import opened Wrappers
  import opened Tiles
  import opened EngineProtocol
  import opened Melds
  import opened HandSpec
  import opened Agreement
  import opened HandBuilding
  import opened Settlement

  // the vendored library's numbers of its fans
  const FAN_LIANQIDUI := 6
  const FAN_SHISANYAO := 7
  const FAN_QIDUI := 19
  const FAN_QIXINGBUKAO := 20
  const FAN_QUANBUKAO := 34
  const FAN_SIZE := 83

  /** How often each fan was found. */
  type FanTable = table: seq<uint32> | |table| == FAN_SIZE witness seq(FAN_SIZE, _ => 0)

  datatype Fan = Fan(total: int32, found: FanTable)

  /**
   * The vendored library's JudgeHu and CountFan: any two functions of a hand.
   * The count tables are not arguments of their own, since an indexed hand has
   * only one set of them.
   */
  datatype Engine = Engine(judgeHu: Hand -> bool, countFan: Hand -> Fan)

  datatype MeldResult = MeldResult(meld: Meld, consumed: seq<int>, target: int)

  /** A fan by its number, which decides its code, name and value, and how often it was found. */
  datatype FanDetail = FanDetail(fan: nat, count: uint32)

  datatype WinningContext = WinningContext(
    winType: int, winningTile: int, standardHand: bool, sevenPairs: bool, thirteenOrphans: bool,
    details: seq<FanDetail>, totalFan: uint32)

  datatype ValidateOutcome = ValidateOutcome(
    legal: bool, rejectCode: int, actionKind: int, error: Option<Error>,
    meld: Option<MeldResult>, context: Option<WinningContext>)

  datatype ScoreOutcome = ScoreOutcome(
    totalFan: uint32, details: seq<FanDetail>, rows: seq<SeatDelta>, flags: seq<int>)

  /** A fan total as an unsigned 32-bit field holds it. */
  function Unsigned(fan: int32): uint32 {
    if fan < 0 then fan + 0x1_0000_0000 else fan
  }

  /** The fans found among the first n, in order. */
  function Details(found: FanTable, n: nat): seq<FanDetail>
    requires 1 <= n <= FAN_SIZE
  {
    if n == 1 then []
    else Details(found, n - 1) + if found[n - 1] == 0 then [] else [FanDetail(n - 1, found[n - 1])]
  }

  method PopulateFanDetails(fan: Fan) returns (details: seq<FanDetail>)
    ensures details == Details(fan.found, FAN_SIZE)
  {
    details := [];
    for i := 1 to FAN_SIZE
      invariant details == Details(fan.found, i)
    {
      if fan.found[i] != 0 {
        details := details + [FanDetail(i, fan.found[i])];
      }
    }
  }

  /** Every fan that was found is listed exactly once, in ascending order, and no other. */
  lemma {:induction false} DetailsAre(found: FanTable, n: nat)
    requires 1 <= n <= FAN_SIZE
    ensures forall d :: d in Details(found, n) <==> 1 <= d.fan < n && d.count == found[d.fan] && d.count != 0
    ensures forall i, j | 0 <= i < j < |Details(found, n)| :: Details(found, n)[i].fan < Details(found, n)[j].fan
  {
    if n > 1 {
      DetailsAre(found, n - 1);
      var front := Details(found, n - 1);
      assert forall i | 0 <= i < |front| :: front[i] in front;
    }
  }

  function ContextOf(winType: int, winningTile: int, fan: Fan): WinningContext {
    var pairs := fan.found[FAN_QIDUI] != 0 || fan.found[FAN_LIANQIDUI] != 0;
    var orphans := fan.found[FAN_SHISANYAO] != 0;
    WinningContext(
      winType, winningTile,
      !pairs && !orphans && fan.found[FAN_QIXINGBUKAO] == 0 && fan.found[FAN_QUANBUKAO] == 0, pairs, orphans,
      Details(fan.found, FAN_SIZE), Unsigned(fan.total))
  }

  function DeduceActionKind(candidate: CandidateAction): int {
    match candidate
    case CandidateDiscard(_, _) => ACTION_DISCARD
    case CandidateClaim(claim) =>
      if claim.kind == CLAIM_CHI then ACTION_CHI
      else if claim.kind == CLAIM_PENG then ACTION_PENG
      else if claim.kind == CLAIM_EXPOSED_KONG then ACTION_EXPOSED_KONG
      else if IsWinningClaimKind(claim.kind) then ACTION_DECLARE_WIN
      else ACTION_UNSPECIFIED
    case CandidateWin(_, _, _, _) => ACTION_DECLARE_WIN
    case CandidatePass(_) => ACTION_PASS
    case CandidateKong(kind, _, _, _, _) => kind
    case CandidateReplaceFlower => ACTION_REPLACE_FLOWER
    case NoCandidate => ACTION_UNSPECIFIED
  }

  // ---------- validation ----------

  function Precheck(v: ValidationRequest): Option<Error> {
    if v.roomId == "" || v.matchId == "" || v.roundId == "" then Some(BlankIds)
    else if !v.hasRuleConfig || !v.hasRoundContext || !v.hasCandidate then Some(MissingParts)
    else if v.actorSeat == 0 then Some(NoActorSeat)
    else if v.candidate.NoCandidate? then Some(NoAction)
    else None
  }

  function Refused(actionKind: int, error: Error): ValidateOutcome {
    ValidateOutcome(false, REJECT_INVALID_CONTEXT, actionKind, Some(error), None, None)
  }

  function ValidateWin(engine: Engine, v: ValidationRequest): ValidateOutcome
    requires IsWinningAction(v.candidate)
  {
    match ValidationHand(v)
    case Err(error) => Refused(ACTION_DECLARE_WIN, error)
    case Ok(hand) =>
      if !engine.judgeHu(hand) then
        ValidateOutcome(false, REJECT_HAND_NOT_COMPLETE, ACTION_DECLARE_WIN, None, None, None)
      else
        ValidateOutcome(true, REJECT_UNSPECIFIED, ACTION_DECLARE_WIN, None, None,
                        Some(ContextOf(ExtractWinType(v.candidate).value, ExtractWinningTile(v.candidate).value,
                                       engine.countFan(hand))))
  }

  /** Any other action is legal here; a claim comes with the meld it would make. */
  function Validate(engine: Engine, v: ValidationRequest): ValidateOutcome {
    if Precheck(v).Some? then Refused(ACTION_UNSPECIFIED, Precheck(v).value)
    else if IsWinningAction(v.candidate) then ValidateWin(engine, v)
    else
      ValidateOutcome(true, REJECT_UNSPECIFIED, DeduceActionKind(v.candidate), None,
                      if v.candidate.CandidateClaim? then
                        Some(MeldResult(ProposedMeld(v.candidate.claim), v.candidate.claim.consume,
                                        v.candidate.claim.target))
                      else None,
                      None)
  }

  method ProposeMeld(claim: ClaimAction) returns (r: MeldResult)
    ensures r == MeldResult(ProposedMeld(claim), claim.consume, claim.target)
  {
    var tiles, consumed := [], [];
    for i := 0 to |claim.consume|
      invariant tiles == claim.consume[..i] && consumed == claim.consume[..i]
    {
      tiles := tiles + [claim.consume[i]];
      consumed := consumed + [claim.consume[i]];
    }
    tiles := tiles + [claim.target];
    var meld := Meld(DeduceMeldKind(claim), tiles, claim.source, claim.target, false, claim.sourceEventSeq);
    r := MeldResult(meld, consumed, claim.target);
  }

  method BuildWinningContext(candidate: CandidateAction, fan: Fan) returns (context: WinningContext)
    requires IsWinningAction(candidate)
    ensures context == ContextOf(ExtractWinType(candidate).value, ExtractWinningTile(candidate).value, fan)
  {
    var sevenPairs := fan.found[FAN_QIDUI] != 0 || fan.found[FAN_LIANQIDUI] != 0;
    var thirteenOrphans := fan.found[FAN_SHISANYAO] != 0;
    var standardHand := && !sevenPairs && !thirteenOrphans
                        && fan.found[FAN_QIXINGBUKAO] == 0 && fan.found[FAN_QUANBUKAO] == 0;
    var details := PopulateFanDetails(fan);
    context := WinningContext(ExtractWinType(candidate).value, ExtractWinningTile(candidate).value,
                              standardHand, sevenPairs, thirteenOrphans, details, Unsigned(fan.total));
  }

  method ValidateAction(engine: Engine, v: ValidationRequest) returns (outcome: ValidateOutcome)
    ensures outcome == Validate(engine, v)
  {
    if v.roomId == "" || v.matchId == "" || v.roundId == "" {
      return Refused(ACTION_UNSPECIFIED, BlankIds);
    }
    if !v.hasRuleConfig || !v.hasRoundContext || !v.hasCandidate {
      return Refused(ACTION_UNSPECIFIED, MissingParts);
    }
    if v.actorSeat == 0 {
      return Refused(ACTION_UNSPECIFIED, NoActorSeat);
    }
    if v.candidate.NoCandidate? {
      return Refused(ACTION_UNSPECIFIED, NoAction);
    }
    outcome := ValidateOutcome(true, REJECT_UNSPECIFIED, DeduceActionKind(v.candidate), None, None, None);
    if IsWinningAction(v.candidate) {
      var built := BuildForValidation(v);
      if built.Err? {
        return outcome.(legal := false, rejectCode := REJECT_INVALID_CONTEXT, error := Some(built.error));
      }
      var hand := built.value.Contents();
      outcome := outcome.(legal := engine.judgeHu(hand), actionKind := ACTION_DECLARE_WIN);
      if !outcome.legal {
        return outcome.(rejectCode := REJECT_HAND_NOT_COMPLETE);
      }
      var context := BuildWinningContext(v.candidate, engine.countFan(hand));
      return outcome.(context := Some(context));
    }
    if v.candidate.CandidateClaim? && !IsWinningClaimKind(v.candidate.claim.kind) {
      var proposed := ProposeMeld(v.candidate.claim);
      outcome := outcome.(meld := Some(proposed));
    }
  }

  // ---------- scoring ----------

  function WinnerHand(s: ScoreRequest): Result<HandSnapshot, Error> {
    if !s.hasRoundContext || !s.hasRuleConfig then Err(MissingParts)
    else if s.winnerSeat == 0 then Err(NoWinnerSeat)
    else
      match FindWinnerHand(s.hands, s.winnerSeat)
      case None => Err(NoWinnerHand)
      case Some(hand) => Ok(hand)
  }

  function TermsOf(engine: Engine, s: ScoreRequest, hand: Hand): Terms {
    Terms(SelfDrawn(s.winType), s.winnerSeat, s.discarderSeat, UnitDelta(s.basePoints, engine.countFan(hand).total))
  }

  /** The winner's hand, as built and accepted. */
  function JudgedHand(engine: Engine, s: ScoreRequest): Result<Hand, Error> {
    var winner :- WinnerHand(s);
    var hand :- ScoringHand(s, winner);
    if engine.judgeHu(hand) then Ok(hand) else Err(NotAWinningHand)
  }

  function Score(engine: Engine, s: ScoreRequest): Result<ScoreOutcome, Error> {
    var hand :- JudgedHand(engine, s);
    var fan := engine.countFan(hand);
    Ok(ScoreOutcome(Unsigned(fan.total), Details(fan.found, FAN_SIZE), Settle(TermsOf(engine, s, hand), s.hands),
                    s.settlementFlags))
  }

  /** The numbers that the request leads to, if it is scored at all, are 64-bit numbers. */
  ghost predicate ScoreFits(engine: Engine, s: ScoreRequest) {
    JudgedHand(engine, s).Ok? ==> Fits(TermsOf(engine, s, JudgedHand(engine, s).value), s.hands)
  }

  /** Defined if and only if no operation overflows; the outcome is then the specified one. */
  method CalculateScore(engine: Engine, s: ScoreRequest) returns (outcome: Result<ScoreOutcome, Error>, defined: bool)
    ensures defined <==> ScoreFits(engine, s)
    ensures defined ==> outcome == Score(engine, s)
  {
    if !s.hasRoundContext || !s.hasRuleConfig {
      return Err(MissingParts), true;
    }
    if s.winnerSeat == 0 {
      return Err(NoWinnerSeat), true;
    }
    var winner := FindWinner(s.hands, s.winnerSeat);
    if winner.None? {
      return Err(NoWinnerHand), true;
    }
    var built := BuildForScoring(s, winner.value);
    if built.Err? {
      return Err(built.error), true;
    }
    var hand := built.value.Contents();
    if !engine.judgeHu(hand) {
      return Err(NotAWinningHand), true;
    }
    var fan := engine.countFan(hand);
    var details := PopulateFanDetails(fan);
    var rows;
    rows, defined := SettleHands(s.winType, s.winnerSeat, s.discarderSeat, s.basePoints, fan.total, s.hands);
    outcome := Ok(ScoreOutcome(Unsigned(fan.total), details, rows, s.settlementFlags));
  }

  // ---------- both ----------

  /** Only hands in the winner's seat are flagged as the winner's. */
  ghost predicate FlagAgrees(s: ScoreRequest) {
    forall h | h in s.hands :: h.winner ==> h.seat == s.winnerSeat
  }

  lemma {:induction false} FlaggedHand(hands: seq<HandSnapshot>, winnerSeat: int)
    requires forall h | h in hands :: h.winner ==> h.seat == winnerSeat
    ensures FindWinnerHand(hands, winnerSeat).Some? <==> exists h :: h in hands && h.seat == winnerSeat
    ensures FindWinnerHand(hands, winnerSeat).Some? ==>
              FindWinnerHand(hands, winnerSeat).value in hands
              && FindWinnerHand(hands, winnerSeat).value.seat == winnerSeat
  {
    if hands != [] {
      FlaggedHand(hands[1..], winnerSeat);
      assert forall h :: h in hands <==> h == hands[0] || h in hands[1..];
    }
  }

  /**
   * A win and its settlement agree: on requests about the same win, each with
   * its required parts, validation accepts the win if and only if scoring does
   * and the private hand has thirteen tiles, counting a meld as three; and the
   * fans and the total it announced are the ones that are settled.
   */
  lemma AcceptedWinIsScored(engine: Engine, v: ValidationRequest, s: ScoreRequest, hand: HandSnapshot)
    requires Precheck(v).None? && IsWinningAction(v.candidate)
    requires WinnerHand(s) == Ok(hand)
    requires Matching(v, s, hand) && SameConcealed(v, s, hand)
    ensures Validate(engine, v).legal <==>
              Score(engine, s).Ok? && 3 * |hand.melds| + |v.privateHand.value.concealed| == 13
    ensures Validate(engine, v).legal ==>
              && Validate(engine, v).context.Some?
              && Validate(engine, v).context.value.totalFan == Score(engine, s).value.totalFan
              && Validate(engine, v).context.value.details == Score(engine, s).value.details
  {
    BuildersAgree(v, s, hand);
  }

  /** With agreeing flags, the hand that is scored is the one in the winner's seat. */
  lemma WinnerHandSeat(s: ScoreRequest)
    requires s.hasRoundContext && s.hasRuleConfig && s.winnerSeat != 0 && FlagAgrees(s)
    ensures WinnerHand(s).Ok? <==> exists h :: h in s.hands && h.seat == s.winnerSeat
    ensures WinnerHand(s).Ok? ==> WinnerHand(s).value in s.hands && WinnerHand(s).value.seat == s.winnerSeat
  {
    FlaggedHand(s.hands, s.winnerSeat);
  }

  /**
   * What CalculateScore hands out cancels out if nobody shares a seat, the flag
   * agrees with the winner's seat and, off self-draw, another seat discarded.
   */
  lemma ScoreIsZeroSum(engine: Engine, s: ScoreRequest, discarder: HandSnapshot)
    requires Score(engine, s).Ok? && FlagAgrees(s) && DistinctSeats(s.hands)
    requires SelfDrawn(s.winType)
          || (discarder in s.hands && discarder.seat == s.discarderSeat && s.discarderSeat != s.winnerSeat)
    ensures SumOf(DeltasOf(Score(engine, s).value.rows)) == 0
    ensures SumOf(TotalsOf(Score(engine, s).value.rows)) == SumOf(ScoresOf(s.hands))
  {
    WinnerHandSeat(s);
    var hand := JudgedHand(engine, s).value;
    OrdinarySettlement(TermsOf(engine, s, hand), s.hands, WinnerHand(s).value, discarder);
  }

  /** Every scored claim that is worth something but names no listed discarder creates points. */
  lemma UnlistedDiscarder(engine: Engine, s: ScoreRequest)
    requires Score(engine, s).Ok? && !SelfDrawn(s.winType)
    requires engine.countFan(JudgedHand(engine, s).value).total > 0
    requires exists h :: h in s.hands && h.seat == s.winnerSeat
    requires forall h | h in s.hands :: h.seat == s.discarderSeat ==> h.seat == s.winnerSeat
    ensures SumOf(DeltasOf(Score(engine, s).value.rows)) > 0
  {
    UnitSign(s.basePoints, engine.countFan(JudgedHand(engine, s).value).total);
    NobodyPays(TermsOf(engine, s, JudgedHand(engine, s).value), s.hands);
  }

  /** Every scored self-draw that is worth something but lists nobody in the winner's seat destroys points. */
  lemma UnseatedWinner(engine: Engine, s: ScoreRequest)
    requires Score(engine, s).Ok? && SelfDrawn(s.winType)
    requires engine.countFan(JudgedHand(engine, s).value).total > 0
    requires forall h | h in s.hands :: h.seat != s.winnerSeat
    ensures SumOf(DeltasOf(Score(engine, s).value.rows)) < 0
  {
    UnitSign(s.basePoints, engine.countFan(JudgedHand(engine, s).value).total);
    NobodyWins(TermsOf(engine, s, JudgedHand(engine, s).value), s.hands);
  }

  /** A rule engine that takes every hand for a win of eight fan. */
  function Lenient(): Engine {
    Engine(_ => true, _ => Fan(8, seq(FAN_SIZE, _ => 0)))
  }

  lemma OneHandScored(s: ScoreRequest, hand: HandSnapshot)
    requires s.hasRuleConfig && s.hasRoundContext && s.winnerSeat != 0 && s.hands == [hand] && hand.winner
    requires ScoringHand(s, hand).Ok?
    ensures WinnerHand(s) == Ok(hand) && Score(Lenient(), s).Ok?
    ensures Lenient().countFan(JudgedHand(Lenient(), s).value).total == 8
  {
  }

  /** Such requests are scored: a claimed win from a player who is not listed. */
  lemma ScoreCreatesPoints() returns (s: ScoreRequest)
    ensures Score(Lenient(), s).Ok? && FlagAgrees(s) && DistinctSeats(s.hands)
    ensures SumOf(DeltasOf(Score(Lenient(), s).value.rows)) > 0
  {
    var hand := StraightHand();
    s := ScoreRequest(true, true, 1, false, 1, WIN_DISCARD, 1, 2, 12, [hand], []);
    FullHandScores(s, hand);
    OneHandScored(s, hand);
    assert hand in s.hands;
    UnlistedDiscarder(Lenient(), s);
  }

  /** And a self-draw whose winner is only flagged, in another seat than the one named as the winner's. */
  lemma ScoreDestroysPoints() returns (s: ScoreRequest)
    ensures Score(Lenient(), s).Ok? && DistinctSeats(s.hands) && exists h :: h in s.hands && h.winner
    ensures SumOf(DeltasOf(Score(Lenient(), s).value.rows)) < 0
  {
    var hand := StraightHand();
    s := ScoreRequest(true, true, 1, false, 1, WIN_SELF_DRAW, 2, 0, 12, [hand], []);
    FullHandScores(s, hand);
    OneHandScored(s, hand);
    assert hand in s.hands && hand.winner;
    UnseatedWinner(Lenient(), s);
  }

  /**
   * The meld that validation proposes for a claim encodes if and only if the
   * claim is a chi of two consumed tiles or a peng or kong from another seat, of
   * known tiles.
   */
  lemma ProposedMeldEncodes(engine: Engine, v: ValidationRequest)
    requires Precheck(v).None? && v.candidate.CandidateClaim? && !IsWinningAction(v.candidate)
    ensures Validate(engine, v).meld.Some?
    ensures var claim := v.candidate.claim;
            Encode(Validate(engine, v).meld.value.meld, v.actorSeat).Ok?
            <==> && Known(claim.target) && (forall t | t in claim.consume :: Known(t))
                 && (|| (claim.kind == CLAIM_CHI && |claim.consume| == 2)
                     || ((claim.kind == CLAIM_PENG || claim.kind == CLAIM_EXPOSED_KONG)
                         && FromAnother(v.actorSeat, claim.source)))
  {
    ProposedEncodesIff(v.candidate.claim, v.actorSeat);
  }
}
