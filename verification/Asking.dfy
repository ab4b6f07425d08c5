// What the room asks the rule engine, and which code an action is rejected with
// (src/room.rs:600-727, 791-1037, 1294-1403).
module Asking {
  import opened Wrappers
  import opened EngineProtocol
  import opened Protocol
  import opened RoomSpec
  import opened RoomCore
  import opened Requests
  import opened Table
  import Numbering
  import Translation

  // ---------- codes ----------

  /** The request has an action and names the match and the round of the room. */
  predicate Current(core: Core, request: ActionRequest) {
    && request.matchId == core.matchId && request.roundId == "hand-" + Decimal(core.round.handNumber)
    && request.action.Some?
  }

  /** A toggle that names the current match and round. */
  predicate MatchingToggle(core: Core, request: ActionRequest) {
    Current(core, request) && request.action.value.AutoPlayToggle?
  }

  /** What a player is told of the rule engine's answer: an action that is legal is still not carried out. */
  predicate Verdict(answer: EngineAnswer, code: RejectCode) {
    match answer
    case CallFailed => code == InternalError
    case Answered(isLegal, number) =>
      if isLegal then code == ActionNotAvailable
      else if number == 1 then code == InvalidRequest
      else if number == 2 || number == 3 then code == InvalidTile
      else if number == 7 then code == ActionWindowClosed
      else if number == 8 then code == InternalError
      else code == RuleValidationFailed
  }

  /** Why an action of a seated player is rejected, in the order in which the room looks. */
  ghost predicate RejectedFor(core: Core, request: ActionRequest, answer: EngineAnswer, code: RejectCode) {
    if !Current(core, request) then code == InvalidRequest
    else if exists wrong :: Translation.Misread(request.action.value, wrong) then
      Translation.Misread(request.action.value, code)
    else Verdict(answer, code)
  }

  lemma SubmittedCode(r: Room, seat: Seat, request: ActionRequest, action: ClientAction, answer: EngineAnswer)
    requires Current(r.core, request) && request.action == Some(action) && !action.AutoPlayToggle?
    ensures RejectedFor(r.core, request, answer, ActionCode(r, Submit(seat, action), request, answer))
  {
    Translation.OnlyTheCandidateCanFail(r.core.roomId, r.core.matchId, r.core.round, Seated(r.core.playersBySeat), seat,
                                        CurrentEventSeq(r), request.actionWindowId, action);
    forall wrong
      ensures Translation.BuildCandidate(seat, CurrentEventSeq(r), action) == Err(wrong)
         <==> Translation.Misread(action, wrong)
    {
      Translation.MisreadIff(seat, CurrentEventSeq(r), action, wrong);
    }
  }

  /** The code of every rejected action of a registered connection is the one its request and the answer call for. */
  lemma CodeTells(r: Room, c: ConnectionId, request: ActionRequest, answer: EngineAnswer)
    requires SeatForConnection(r.core, c).Some? && !Screen(r.core, c, request).Toggle?
    ensures !MatchingToggle(r.core, request)
    ensures RejectedFor(r.core, request, answer, ActionCode(r, Screen(r.core, c, request), request, answer))
  {
    if Current(r.core, request) {
      SubmittedCode(r, SeatForConnection(r.core, c).value, request, request.action.value, answer);
    }
  }

  /** The rule engine is asked exactly about an action of a seated player that is no toggle and that can be read. */
  lemma AsksIff(r: Room, command: Command)
    ensures AsksEngine(r, command)
       <==> && command.PlayerAction? && SeatForConnection(r.core, command.connectionId).Some?
            && Current(r.core, command.request) && !command.request.action.value.AutoPlayToggle?
            && Translation.Translatable(command.request.action.value)
  {
    if command.PlayerAction? && SeatForConnection(r.core, command.connectionId).Some? && Current(r.core, command.request) {
      var seat, action := SeatForConnection(r.core, command.connectionId).value, command.request.action.value;
      Translation.TranslatesIff(seat, CurrentEventSeq(r), action);
      Translation.OnlyTheCandidateCanFail(r.core.roomId, r.core.matchId, r.core.round, Seated(r.core.playersBySeat), seat,
                                          CurrentEventSeq(r), command.request.actionWindowId, action);
    }
  }

  // ---------- requests ----------

  /** East is 1, then in the order of the seats; no seat is 0. */
  predicate SeatNumber(seat: Seat, number: int) {
    if seat == NoSeat then number == 0 else 1 <= number <= 4 && SeatAt(number - 1) == seat
  }

  /** The action kind that a claim or a win answers: a discard, an added kong, or a draw. */
  predicate AnswersTo(action: ClientAction, kind: int) {
    match action
    case Discard(_, _) => kind == 1
    case Claim(claimKind, _, _, _, _) => kind == if claimKind == 5 then 7 else 2
    case DeclareWin(winType, _, _, _) =>
      kind == if winType == 1 || winType == 4 then 1 else if winType == 2 then 2 else if winType == 3 then 7 else 0
    case Pass(_) => kind == 0
    case SupplementalKong(_) => kind == 7
    case AutoPlayToggle(_) => false
  }

  /** The event, seat and tile that an action refers to: its source's, or else the player's own and the current event. */
  predicate RefersTo(action: ClientAction, actor: int, current: nat, event: nat, seat: int, tile: int) {
    match action
    case Discard(t, _) => event == current && seat == actor && tile == t
    case Claim(_, t, _, source, sourceEvent) => event == sourceEvent && seat == source && tile == t
    case DeclareWin(_, t, source, sourceEvent) => event == sourceEvent && seat == source && tile == t
    case Pass(sourceEvent) => event == sourceEvent && seat == 0 && tile == 0
    case SupplementalKong(t) => event == current && seat == actor && tile == t
    case AutoPlayToggle(_) => false
  }

  ghost predicate RecentTells(recent: RecentAction, action: ClientAction, actor: int, current: nat) {
    && RefersTo(action, actor, current, recent.sourceEventSeq, recent.sourceSeat, recent.sourceTile)
    && AnswersTo(action, recent.sourceActionKind)
    && (recent.replacementDraw <==> action.DeclareWin? && action.winType == 4)
    && (recent.robKongCandidate <==>
          || (action.Claim? && action.claimKind == 5) || (action.DeclareWin? && action.winType == 3)
          || action.SupplementalKong?)
  }

  /** A window for a discard shows no tile. */
  ghost predicate WindowTells(window: ClaimWindow, windowId: nat, action: ClientAction, actor: int, current: nat) {
    && window.actionWindowId == windowId && window.eligibleSeats == [actor]
    && RefersTo(action, actor, current, window.sourceEventSeq, window.sourceSeat,
                if action.Discard? then action.tile else window.targetTile)
    && (action.Discard? ==> window.targetTile == 0)
    && AnswersTo(action, window.triggerActionKind)
  }

  ghost predicate CandidateTells(candidate: CandidateAction, action: ClientAction, actor: int, current: nat) {
    && Translation.ActionOf(candidate) == Some(action)
    && (candidate.CandidateKong? ==>
          candidate.kongKind == 7 && candidate.consume == [] && candidate.sourceSeat == actor
          && candidate.sourceEventSeq == current)
  }

  /** One player state for each taken seat, in order, with the seat's number and nothing to see. */
  ghost predicate PlayersTell(players: seq<EnginePlayerState>, core: Core) {
    && |players| == Taken(core.playersBySeat, 4)
    && forall k: nat | k < 4 && SeatAt(k) in core.playersBySeat ::
         Taken(core.playersBySeat, k) < |players| && players[Taken(core.playersBySeat, k)] == EnginePlayerState(k + 1, [], [])
  }

  /** Who asks, in which room, match and round, about which action, and nothing of anybody's hand. */
  ghost predicate RequestTells(v: ValidationRequest, core: Core, current: nat, seat: Seat, windowId: nat,
                               action: ClientAction) {
    && v.roomId == core.roomId && v.matchId == core.matchId
    && v.roundId == "hand-" + Decimal(core.round.handNumber) && v.serverEventSeq == current
    && v.hasRuleConfig && v.hasRoundContext && v.hasCandidate
    && SeatNumber(core.round.prevailingWind, v.prevailingWind) && SeatNumber(seat, v.actorSeat)
    && (v.isLastTile <==> core.round.wallTilesRemaining <= 1)
    && CandidateTells(v.candidate, action, v.actorSeat, current)
    && v.recent.Some? && RecentTells(v.recent.value, action, v.actorSeat, current)
    && (v.claimWindow.Some? <==> windowId != 0)
    && (v.claimWindow.Some? ==> WindowTells(v.claimWindow.value, windowId, action, v.actorSeat, current))
    && PlayersTell(v.players, core)
    && v.privateHand == Some(PrivateHand([], 0))
  }

  lemma SeatNumbers(seat: Seat)
    ensures SeatNumber(seat, Translation.SeatValue(seat))
  {
  }

  lemma CandidateOf(seat: Seat, current: nat, action: ClientAction)
    requires Translation.BuildCandidate(seat, current, action).Ok?
    ensures CandidateTells(Translation.BuildCandidate(seat, current, action).value, action,
                           Translation.SeatValue(seat), current)
  {
    Translation.CandidateRoundTrip(seat, current, action);
  }

  lemma RecentOf(seat: Seat, current: nat, action: ClientAction)
    requires Translation.BuildRecentAction(seat, current, action).Ok? && !action.AutoPlayToggle?
    ensures Translation.BuildRecentAction(seat, current, action).value.Some?
    ensures RecentTells(Translation.BuildRecentAction(seat, current, action).value.value, action,
                        Translation.SeatValue(seat), current)
  {
  }

  lemma WindowOf(seat: Seat, current: nat, windowId: nat, action: ClientAction)
    requires Translation.BuildClaimWindow(seat, current, windowId, action).Ok? && !action.AutoPlayToggle?
    ensures var window := Translation.BuildClaimWindow(seat, current, windowId, action).value;
            && (window.Some? <==> windowId != 0)
            && (window.Some? ==> WindowTells(window.value, windowId, action, Translation.SeatValue(seat), current))
  {
  }

  /** The part of the list of taken seats that is one seat. */
  function SeatedOne(players: map<Seat, PlayerSlot>, seat: Seat): seq<Seat> {
    if seat in players then [seat] else []
  }

  lemma SeatedAt(players: map<Seat, PlayerSlot>, k: nat, list: seq<Seat>)
    requires k < 4 && SeatAt(k) in players && list == Seated(players)
    ensures Taken(players, k) < |list| == Taken(players, 4) && list[Taken(players, k)] == SeatAt(k)
  {
    TakenSums(players);
    FourParts(SeatedOne(players, East), SeatedOne(players, South), SeatedOne(players, West), SeatedOne(players, North));
  }

  lemma PlayersOf(core: Core, list: seq<Seat>)
    requires list == Seated(core.playersBySeat)
    ensures PlayersTell(Translation.PlayerStates(list), core)
  {
    var players := core.playersBySeat;
    SeatedSize(players, list);
    forall k: nat | k < 4 && SeatAt(k) in players
      ensures Taken(players, k) < |list| && list[Taken(players, k)] == SeatAt(k)
    {
      SeatedAt(players, k, list);
    }
  }

  lemma SeatedSize(players: map<Seat, PlayerSlot>, list: seq<Seat>)
    requires list == Seated(players)
    ensures |list| == Taken(players, 4)
  {
    TakenSums(players);
  }

  lemma RequestOf(r: Room, seat: Seat, request: ActionRequest, action: ClientAction)
    requires EngineRequest(r, seat, request, action).Ok?
    ensures RequestTells(EngineRequest(r, seat, request, action).value, r.core, CurrentEventSeq(r), seat,
                         request.actionWindowId, action)
  {
    var current := CurrentEventSeq(r);
    CandidateOf(seat, current, action);
    RecentOf(seat, current, action);
    WindowOf(seat, current, request.actionWindowId, action);
    PlayersOf(r.core, Seated(r.core.playersBySeat));
    SeatNumbers(seat);
    SeatNumbers(r.core.round.prevailingWind);
  }

  lemma RunCounts(roomId: RoomId, script: seq<Entry>)
    ensures Run(roomId, script).nextEventSeq >= 1
  {
    Numbering.RunNumbered(roomId, script);
  }

  /**
   * In every run the rule engine is asked about the very action of the player who
   * asks, in the first hand of the room's match, at the last number handed out,
   * with the table's seats and nobody's tiles.
   */
  lemma AskedTells(roomId: RoomId, script: seq<Entry>, r: Room, command: Command)
    requires r == Run(roomId, script) && AsksEngine(r, command)
    ensures command.connectionId in r.core.connectionToUser
    ensures r.core.connectionToUser[command.connectionId] in r.core.userToSeat
    ensures command.request.action.Some? && r.nextEventSeq >= 1
    ensures var seat := r.core.userToSeat[r.core.connectionToUser[command.connectionId]];
            var asked := EngineRequest(r, seat, command.request, command.request.action.value);
            && asked.Ok?
            && RequestTells(asked.value, r.core, r.nextEventSeq - 1, seat, command.request.actionWindowId,
                            command.request.action.value)
            && asked.value.roomId == roomId && asked.value.matchId == "match-" + roomId && asked.value.roundId == "hand-1"
            && asked.value.prevailingWind == 1 && !asked.value.isLastTile && 1 <= asked.value.actorSeat <= 4
  {
    RunLinked(roomId, script);
    RoundAfter(roomId, Commands(script));
    RunCounts(roomId, script);
    AskerOf(r, command);
    RequestOf(r, r.core.userToSeat[r.core.connectionToUser[command.connectionId]], command.request,
              command.request.action.value);
    assert Decimal(1) == "1";
  }

  lemma AskerOf(r: Room, command: Command)
    requires Linked(r.core) && AsksEngine(r, command)
    ensures command.connectionId in r.core.connectionToUser && command.request.action.Some?
    ensures r.core.connectionToUser[command.connectionId] in r.core.userToSeat
    ensures var seat := r.core.userToSeat[r.core.connectionToUser[command.connectionId]];
            seat != NoSeat && EngineRequest(r, seat, command.request, command.request.action.value).Ok?
  {
  }
}
