// The two components together: the adapter answering the room server's own
// requests (src/room.rs:665-726, 791-826, 1010-1037;
// cpp_engine/src/gb_mahjong_adapter.cc:302-361, 522-602).
module EndToEnd {
  import opened Wrappers
  import opened EngineProtocol
  import opened Protocol
  import opened RoomSpec
  import opened RoomCore
  import Adapter
  import HandSpec
  import PlayerActions
  import Translation

  /** The adapter's outcome, as the rule engine's response carries it. */
  function AnswerOf(engine: Adapter.Engine, request: ValidationRequest): EngineAnswer {
    var outcome := Adapter.Validate(engine, request);
    Answered(outcome.legal, outcome.rejectCode)
  }

  predicate ClaimsWin(action: ClientAction) {
    || action.DeclareWin?
    || (action.Claim? && (action.claimKind == CLAIM_DISCARD_WIN || action.claimKind == CLAIM_ROB_KONG_WIN))
  }

  /** The adapter recognises a winning action by the client's own words, and never finds the action missing. */
  lemma WinsAreRecognised(actor: Seat, currentSeq: nat, action: ClientAction)
    requires Translation.BuildCandidate(actor, currentSeq, action).Ok?
    ensures var candidate := Translation.BuildCandidate(actor, currentSeq, action).value;
            (HandSpec.IsWinningAction(candidate) <==> ClaimsWin(action)) && !candidate.NoCandidate?
  {
  }

  lemma {:induction false} FoundAmong(players: seq<EnginePlayerState>, seat: int)
    ensures HandSpec.FindActor(players, seat).Some? ==> HandSpec.FindActor(players, seat).value in players
  {
    if players != [] {
      FoundAmong(players[1..], seat);
    }
  }

  /** No hand can be built from a request that shows neither concealed tiles nor melds nor a drawn tile. */
  lemma EmptyHandRefused(v: ValidationRequest)
    requires forall p | p in v.players :: p.melds == []
    requires v.privateHand == Some(PrivateHand([], NO_TILE))
    ensures HandSpec.ValidationHand(v).Err?
  {
    FoundAmong(v.players, v.actorSeat);
  }

  /** What the adapter makes of a request with an empty hand and all its parts. */
  lemma EmptyHandAnswer(engine: Adapter.Engine, v: ValidationRequest)
    requires v.matchId != "" && v.roundId != "" && v.hasRuleConfig && v.hasRoundContext && v.hasCandidate
    requires v.actorSeat != 0 && !v.candidate.NoCandidate?
    requires (forall p | p in v.players :: p.melds == []) && v.privateHand == Some(PrivateHand([], NO_TILE))
    ensures AnswerOf(engine, v)
         == if v.roomId == "" || HandSpec.IsWinningAction(v.candidate) then Answered(false, REJECT_INVALID_CONTEXT)
            else Answered(true, REJECT_UNSPECIFIED)
  {
    EmptyHandRefused(v);
  }

  /** The requests of a room show no hand, whatever has happened in it. */
  lemma RequestsShowNothing(r: Room, seat: Seat, request: ActionRequest, action: ClientAction)
    requires seat != NoSeat && r.core.matchId != "" && EngineRequest(r, seat, request, action).Ok?
    ensures var v := EngineRequest(r, seat, request, action).value;
            && v.roomId == r.core.roomId && v.matchId != "" && v.roundId != ""
            && v.hasRuleConfig && v.hasRoundContext && v.hasCandidate && v.actorSeat != 0
            && Translation.BuildCandidate(seat, CurrentEventSeq(r), action) == Ok(v.candidate)
            && (forall p | p in v.players :: p.melds == []) && v.privateHand == Some(PrivateHand([], NO_TILE))
  {
  }

  /**
   * With the adapter as the rule engine, whatever the vendored library would
   * judge, the asker of a translatable action is answered in one rejection: an
   * invalid request if the action claims a win, for the room sends the adapter
   * no hand to judge, or if the room's id is blank, and an action not available
   * otherwise.
   */
  lemma NoWinIsEverGranted(roomId: RoomId, script: seq<Entry>, r: Room, engine: Adapter.Engine, command: Command,
                           now: Seat -> nat)
    requires r == Run(roomId, script) && AsksEngine(r, command)
    ensures var screening := Screen(r.core, command.connectionId, command.request);
            var answer := AnswerOf(engine, EngineRequest(r, screening.seat, command.request, screening.action).value);
            Step(r, Entry(command, Inputs(now, answer)))
            == Reject(r, command.connectionId, command.requestId,
                      if roomId == "" || ClaimsWin(screening.action) then InvalidRequest else ActionNotAvailable,
                      command.request.expectedEventSeq, command.request.actionWindowId)
  {
    var screening := Screen(r.core, command.connectionId, command.request);
    var seat, action := screening.seat, screening.action;
    AskerIsSeated(roomId, script, command.connectionId);
    RequestsShowNothing(r, seat, command.request, action);
    var v := EngineRequest(r, seat, command.request, action).value;
    WinsAreRecognised(seat, CurrentEventSeq(r), action);
    EmptyHandAnswer(engine, v);
    PlayerActions.AnswerDecidesTheCode(r, command, Inputs(now, AnswerOf(engine, v)));
  }

  lemma AskerIsSeated(roomId: RoomId, script: seq<Entry>, c: ConnectionId)
    ensures var core := Run(roomId, script).core;
            && core.roomId == roomId && core.matchId == MatchId(roomId)
            && (SeatForConnection(core, c).Some? ==> SeatForConnection(core, c).value != NoSeat)
  {
    RunCore(roomId, script);
    RoundAfter(roomId, Commands(script));
    CoreAlwaysSound(roomId, Commands(script));
  }
}
