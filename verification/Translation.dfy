// The translators from client actions to rule-engine requests
// (src/room.rs:791-1037, 1294-1403).
//
// The client and engine enums for seats, tiles, claim kinds and win types have
// the same names with the same numbers, so mapping one to the other by name
// keeps the number; what is left of a translator is the range check that
// rejects an unknown number, and its reject code.
module Translation {
  import opened Wrappers
  import opened EngineProtocol
  import opened Protocol

  function SeatValue(seat: Seat): int {
    match seat
    case NoSeat => 0
    case East => 1
    case South => 2
    case West => 3
    case North => 4
  }

  function ParseSeat(seat: int): Result<int, RejectCode> {
    if 0 <= seat <= 4 then Ok(seat) else Err(InvalidRequest)
  }

  function ParseTile(tile: int): Result<int, RejectCode> {
    if 0 <= tile <= LAST_TILE_NUMBER then Ok(tile) else Err(InvalidTile)
  }

  function ParseClaimKind(kind: int): Result<int, RejectCode> {
    if 0 <= kind <= 5 then Ok(kind) else Err(InvalidRequest)
  }

  function ParseWinType(winType: int): Result<int, RejectCode> {
    if 0 <= winType <= 4 then Ok(winType) else Err(InvalidRequest)
  }

  function ParseTiles(tiles: seq<int>): Result<seq<int>, RejectCode> {
    if tiles == [] then Ok([]) else
      var first :- ParseTile(tiles[0]);
      var rest :- ParseTiles(tiles[1..]);
      Ok([first] + rest)
  }

  function DeriveClaimTrigger(kind: int): int {
    if kind == CLAIM_ROB_KONG_WIN then ACTION_SUPPLEMENTAL_KONG else ACTION_DISCARD
  }

  function DeriveWinTrigger(winType: int): int {
    if winType == WIN_SELF_DRAW || winType == WIN_KONG_DRAW then ACTION_DRAW
    else if winType == WIN_DISCARD then ACTION_DISCARD
    else if winType == WIN_ROB_KONG then ACTION_SUPPLEMENTAL_KONG
    else ACTION_UNSPECIFIED
  }

  function BuildCandidate(actor: Seat, currentSeq: nat, action: ClientAction): Result<CandidateAction, RejectCode> {
    match action
    case Discard(tile, tsumogiri) =>
      var t :- ParseTile(tile);
      Ok(CandidateDiscard(t, tsumogiri))
    case Claim(kind, target, consume, source, sourceSeq) =>
      var k :- ParseClaimKind(kind);
      var t :- ParseTile(target);
      var c :- ParseTiles(consume);
      var s :- ParseSeat(source);
      Ok(CandidateClaim(ClaimAction(k, t, c, s, sourceSeq)))
    case DeclareWin(winType, winning, source, sourceSeq) =>
      var w :- ParseWinType(winType);
      var t :- ParseTile(winning);
      var s :- ParseSeat(source);
      Ok(CandidateWin(w, t, s, sourceSeq))
    case Pass(sourceSeq) => Ok(CandidatePass(sourceSeq))
    case SupplementalKong(tile) =>
      var t :- ParseTile(tile);
      Ok(CandidateKong(ACTION_SUPPLEMENTAL_KONG, t, [], SeatValue(actor), currentSeq))
    case AutoPlayToggle(_) => Err(ActionNotAvailable)
  }

  function BuildRecentAction(actor: Seat, currentSeq: nat, action: ClientAction): Result<Option<RecentAction>, RejectCode> {
    match action
    case Discard(tile, _) =>
      var t :- ParseTile(tile);
      Ok(Some(RecentAction(currentSeq, SeatValue(actor), ACTION_DRAW, t, false, false)))
    case Claim(kind, target, _, source, sourceSeq) =>
      var s :- ParseSeat(source);
      var t :- ParseTile(target);
      var k :- ParseClaimKind(kind);
      Ok(Some(RecentAction(sourceSeq, s, DeriveClaimTrigger(kind), t, false, k == CLAIM_ROB_KONG_WIN)))
    case DeclareWin(winType, winning, source, sourceSeq) =>
      var s :- ParseSeat(source);
      var t :- ParseTile(winning);
      var w :- ParseWinType(winType);
      Ok(Some(RecentAction(sourceSeq, s, DeriveWinTrigger(winType), t, w == WIN_KONG_DRAW, w == WIN_ROB_KONG)))
    case Pass(sourceSeq) =>
      Ok(Some(RecentAction(sourceSeq, SeatValue(NoSeat), ACTION_UNSPECIFIED, NO_TILE, false, false)))
    case SupplementalKong(tile) =>
      var t :- ParseTile(tile);
      Ok(Some(RecentAction(currentSeq, SeatValue(actor), ACTION_SUPPLEMENTAL_KONG, t, false, true)))
    case AutoPlayToggle(_) => Ok(None)
  }

  function BuildClaimWindow(actor: Seat, currentSeq: nat, windowId: nat, action: ClientAction)
    : Result<Option<ClaimWindow>, RejectCode>
  {
    if windowId == 0 then Ok(None) else
      match action
      case Claim(kind, target, _, source, sourceSeq) =>
        var s :- ParseSeat(source);
        var t :- ParseTile(target);
        Ok(Some(ClaimWindow(windowId, sourceSeq, s, t, DeriveClaimTrigger(kind), [SeatValue(actor)])))
      case DeclareWin(winType, winning, source, sourceSeq) =>
        var s :- ParseSeat(source);
        var t :- ParseTile(winning);
        Ok(Some(ClaimWindow(windowId, sourceSeq, s, t, DeriveWinTrigger(winType), [SeatValue(actor)])))
      case Pass(sourceSeq) =>
        Ok(Some(ClaimWindow(windowId, sourceSeq, SeatValue(NoSeat), NO_TILE, ACTION_UNSPECIFIED, [SeatValue(actor)])))
      case Discard(_, _) =>
        Ok(Some(ClaimWindow(windowId, currentSeq, SeatValue(actor), NO_TILE, ACTION_DRAW, [SeatValue(actor)])))
      case SupplementalKong(tile) =>
        var t :- ParseTile(tile);
        Ok(Some(ClaimWindow(windowId, currentSeq, SeatValue(actor), t, ACTION_SUPPLEMENTAL_KONG, [SeatValue(actor)])))
      case AutoPlayToggle(_) => Ok(None)
  }

  /** The seats a request is made for: what the rule engine is told of their hands is empty. */
  function PlayerStates(seated: seq<Seat>): seq<EnginePlayerState> {
    seq(|seated|, i requires 0 <= i < |seated| => EnginePlayerState(SeatValue(seated[i]), [], []))
  }

  function BuildValidateRequest(roomId: RoomId, matchId: string, round: RoundInfo, seated: seq<Seat>, actor: Seat,
                                currentSeq: nat, windowId: nat, action: ClientAction)
    : Result<ValidationRequest, RejectCode>
  {
    var candidate :- BuildCandidate(actor, currentSeq, action);
    var recent :- BuildRecentAction(actor, currentSeq, action);
    var window :- BuildClaimWindow(actor, currentSeq, windowId, action);
    Ok(ValidationRequest(roomId, matchId, RoundId(round.handNumber), currentSeq, true, true, true,
                         SeatValue(round.prevailingWind), round.wallTilesRemaining <= 1, SeatValue(actor), candidate,
                         recent, PlayerStates(seated), Some(PrivateHand([], NO_TILE)), window))
  }

  /**
   * Once the candidate action translates, the two context builders cannot
   * fail: the whole request is refused only for the candidate, with its code.
   */
  lemma OnlyTheCandidateCanFail(roomId: RoomId, matchId: string, round: RoundInfo, seated: seq<Seat>, actor: Seat,
                                currentSeq: nat, windowId: nat, action: ClientAction)
    ensures var candidate := BuildCandidate(actor, currentSeq, action);
            var request := BuildValidateRequest(roomId, matchId, round, seated, actor, currentSeq, windowId, action);
            && (request.Ok? <==> candidate.Ok?)
            && (candidate.Err? ==> request.Err? && request.error == candidate.error)
            && (request.Ok? ==> request.value.candidate == candidate.value)
  {
    match action {
      case Discard(_, _) =>
      case Claim(_, _, _, _, _) =>
      case DeclareWin(_, _, _, _) =>
      case Pass(_) =>
      case SupplementalKong(_) =>
      case AutoPlayToggle(_) =>
    }
  }

  /**
   * A translated request carries a recent action always, a claim window exactly
   * when the client named one, and the two name the same source event, the same
   * source seat, the same kind of action and, but for a discard, the same tile. A
   * kong can be robbed exactly when the action responds to an added kong.
   */
  lemma ContextsAgree(roomId: RoomId, matchId: string, round: RoundInfo, seated: seq<Seat>, actor: Seat,
                      currentSeq: nat, windowId: nat, action: ClientAction)
    requires BuildValidateRequest(roomId, matchId, round, seated, actor, currentSeq, windowId, action).Ok?
    ensures var request := BuildValidateRequest(roomId, matchId, round, seated, actor, currentSeq, windowId, action).value;
            && request.recent.Some?
            && (request.claimWindow.Some? <==> windowId != 0)
            && (request.claimWindow.Some? ==>
                  && request.claimWindow.value.actionWindowId == windowId
                  && request.claimWindow.value.sourceEventSeq == request.recent.value.sourceEventSeq
                  && request.claimWindow.value.sourceSeat == request.recent.value.sourceSeat
                  && request.claimWindow.value.triggerActionKind == request.recent.value.sourceActionKind
                  && request.claimWindow.value.targetTile
                     == (if action.Discard? then NO_TILE else request.recent.value.sourceTile)
                  && request.claimWindow.value.eligibleSeats == [request.actorSeat])
            && (request.recent.value.robKongCandidate <==> request.recent.value.sourceActionKind == ACTION_SUPPLEMENTAL_KONG)
            && (request.recent.value.replacementDraw ==> request.recent.value.sourceActionKind == ACTION_DRAW)
  {
    match action {
      case Discard(_, _) =>
      case Claim(_, _, _, _, _) =>
      case DeclareWin(_, _, _, _) =>
      case Pass(_) =>
      case SupplementalKong(_) =>
      case AutoPlayToggle(_) =>
    }
  }

  /** Exactly the actions whose every enum number is known translate. */
  ghost predicate Translatable(action: ClientAction) {
    match action
    case Discard(tile, _) => 0 <= tile <= LAST_TILE_NUMBER
    case Claim(kind, target, consume, source, _) =>
      && 0 <= kind <= 5 && 0 <= target <= LAST_TILE_NUMBER && 0 <= source <= 4
      && forall t | t in consume :: 0 <= t <= LAST_TILE_NUMBER
    case DeclareWin(winType, winning, source, _) => 0 <= winType <= 4 && 0 <= winning <= LAST_TILE_NUMBER && 0 <= source <= 4
    case Pass(_) => true
    case SupplementalKong(tile) => 0 <= tile <= LAST_TILE_NUMBER
    case AutoPlayToggle(_) => false
  }

  lemma {:induction false} ParseTilesIff(tiles: seq<int>)
    ensures ParseTiles(tiles).Ok? <==> forall t | t in tiles :: 0 <= t <= LAST_TILE_NUMBER
    ensures ParseTiles(tiles).Ok? ==> ParseTiles(tiles).value == tiles
  {
    if tiles != [] {
      ParseTilesIff(tiles[1..]);
      assert tiles == [tiles[0]] + tiles[1..];
      if ParseTile(tiles[0]).Err? {
        assert tiles[0] in tiles;
      } else if ParseTiles(tiles[1..]).Err? {
        var t :| t in tiles[1..] && !(0 <= t <= LAST_TILE_NUMBER);
        assert t in tiles;
      }
    }
  }

  lemma TranslatesIff(actor: Seat, currentSeq: nat, action: ClientAction)
    ensures BuildCandidate(actor, currentSeq, action).Ok? <==> Translatable(action)
  {
    if action.Claim? {
      ParseTilesIff(action.consumeTiles);
    }
  }

  /** The first unknown number, in the order the translator reads them, decides the code. */
  ghost predicate Misread(action: ClientAction, code: RejectCode) {
    match action
    case Discard(tile, _) => !(0 <= tile <= 43) && code == InvalidTile
    case Claim(kind, target, consume, source, _) =>
      if !(0 <= kind <= 5) then code == InvalidRequest
      else if !(0 <= target <= 43) || exists t :: t in consume && !(0 <= t <= 43) then code == InvalidTile
      else !(0 <= source <= 4) && code == InvalidRequest
    case DeclareWin(winType, winning, source, _) =>
      if !(0 <= winType <= 4) then code == InvalidRequest
      else if !(0 <= winning <= 43) then code == InvalidTile
      else !(0 <= source <= 4) && code == InvalidRequest
    case Pass(_) => false
    case SupplementalKong(tile) => !(0 <= tile <= 43) && code == InvalidTile
    case AutoPlayToggle(_) => code == ActionNotAvailable
  }

  lemma {:induction false} ParseTilesError(tiles: seq<int>)
    ensures ParseTiles(tiles).Err? ==> ParseTiles(tiles).error == InvalidTile
  {
    if tiles != [] {
      ParseTilesError(tiles[1..]);
    }
  }

  /** The translator fails with a code exactly on the actions that are misread so. */
  lemma MisreadIff(actor: Seat, currentSeq: nat, action: ClientAction, code: RejectCode)
    ensures BuildCandidate(actor, currentSeq, action) == Err(code) <==> Misread(action, code)
  {
    if action.Claim? {
      ParseTilesIff(action.consumeTiles);
      ParseTilesError(action.consumeTiles);
    }
  }

  /** The client's action, read back from the candidate it became; no action becomes one of the other kinds. */
  function ActionOf(candidate: CandidateAction): Option<ClientAction> {
    match candidate
    case CandidateDiscard(tile, tsumogiri) => Some(Discard(tile, tsumogiri))
    case CandidateClaim(claim) =>
      Some(Claim(claim.kind, claim.target, claim.consume, claim.source, claim.sourceEventSeq))
    case CandidateWin(winType, winning, source, sourceSeq) => Some(DeclareWin(winType, winning, source, sourceSeq))
    case CandidatePass(sourceSeq) => Some(Pass(sourceSeq))
    case CandidateKong(_, tile, _, _, _) => Some(SupplementalKong(tile))
    case NoCandidate => None
    case CandidateReplaceFlower => None
  }

  /** Translation loses nothing: the rule engine is asked about the very action the client sent. */
  lemma CandidateRoundTrip(actor: Seat, currentSeq: nat, action: ClientAction)
    requires BuildCandidate(actor, currentSeq, action).Ok?
    ensures ActionOf(BuildCandidate(actor, currentSeq, action).value) == Some(action)
  {
    if action.Claim? {
      ParseTilesIff(action.consumeTiles);
    }
  }
}
