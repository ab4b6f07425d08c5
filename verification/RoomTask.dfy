// The room as src/room.rs keeps it: one object whose handlers update its maps
// in place and send frames as they go. Every handler is proved to do exactly
// what its function in RoomSpec says.
module RoomTask {
  import opened Wrappers
  import opened Protocol
  import opened RoomSpec
  import Translation

  // ---------- a notice may be sent in any order ----------

  lemma SendCommutes(out: Outbox, a: Channel, b: Channel, frame: Frame)
    ensures Send(Send(out, a, frame), b, frame) == Send(Send(out, b, frame), a, frame)
  {
  }

  lemma {:induction false} NotifyCommutes(players: map<Seat, PlayerSlot>, out: Outbox, to: Channel, k: nat, frame: Frame)
    requires k <= 4
    ensures NotifySeats(players, Send(out, to, frame), k, frame) == Send(NotifySeats(players, out, k, frame), to, frame)
  {
    if k != 0 {
      NotifyCommutes(players, out, to, k - 1, frame);
      if ListensAt(players, SeatAt(k - 1)) {
        SendCommutes(NotifySeats(players, out, k - 1, frame), to, players[SeatAt(k - 1)].outboundTx.value, frame);
      }
    }
  }

  /** Notifying one seat ahead of its turn, and the others afterwards, comes to the same. */
  lemma {:induction false} NotifyOneFirst(players: map<Seat, PlayerSlot>, out: Outbox, j: nat, k: nat, frame: Frame)
    requires j < 4 && k <= 4
    ensures k <= j ==> NotifySeats(players, out, k, frame) == NotifySeats(players - {SeatAt(j)}, out, k, frame)
    ensures j < k ==>
              NotifySeats(players, out, k, frame)
              == NotifySeats(players - {SeatAt(j)}, NotifySeat(players, out, SeatAt(j), frame), k, frame)
  {
    if k != 0 {
      NotifyOneFirst(players, out, j, k - 1, frame);
      if k - 1 == j {
        if ListensAt(players, SeatAt(j)) {
          NotifyCommutes(players - {SeatAt(j)}, out, players[SeatAt(j)].outboundTx.value, j, frame);
        }
      } else {
        assert SeatAt(k - 1) != SeatAt(j);
      }
    }
  }

  lemma {:induction false} NotifyNobody(out: Outbox, k: nat, frame: Frame)
    requires k <= 4
    ensures NotifySeats(map[], out, k, frame) == out
  {
    if k != 0 {
      NotifyNobody(out, k - 1, frame);
    }
  }

  class RoomState {
    var roomId: RoomId
    var matchId: string
    var round: RoundInfo
    var phase: GamePhase
    var nextEventSeq: nat
    var playersBySeat: map<Seat, PlayerSlot>
    var userToSeat: map<UserId, Seat>
    var connectionToUser: map<ConnectionId, UserId>
    ghost var sent: Outbox  // every frame handed to an outbound channel so far

    function CoreValue(): Core
      reads this
    {
      Core(roomId, matchId, round, phase, playersBySeat, userToSeat, connectionToUser)
    }

    ghost function Value(): Room
      reads this
    {
      Room(CoreValue(), nextEventSeq, sent)
    }

    /** Only real seats are ever taken. */
    ghost predicate Valid()
      reads this
    {
      NoSeat !in playersBySeat
    }

    constructor (roomId: RoomId)
      ensures Valid() && Value() == NewRoom(roomId)
    {
      this.roomId := roomId;
      matchId := MatchId(roomId);
      round := RoundInfo(East, East, East, 1, 0, 144, 14);
      phase := Lobby;
      nextEventSeq := 1;
      playersBySeat, userToSeat, connectionToUser := map[], map[], map[];
      sent := map[];
    }

    // ---------- sending ----------

    method AllocateEventSeq() returns (eventSeq: nat)
      modifies this`nextEventSeq
      ensures eventSeq == old(nextEventSeq) && nextEventSeq == eventSeq + 1
    {
      eventSeq := nextEventSeq;
      nextEventSeq := nextEventSeq + 1;
    }

    /** Hands a frame to a channel: unbounded, so it is always enqueued. */
    method SendFrame(ch: Channel, frame: Frame)
      modifies this`sent
      ensures sent == Send(old(sent), ch, frame)
    {
      sent := Send(sent, ch, frame);
    }

    function BuildSyncStateFor(recipient: Seat, eventSeq: nat, reason: SyncReason, timeMs: nat): Frame
      reads this
    {
      var players := PlayerList(playersBySeat, round.dealerSeat);
      Frame(eventSeq, SyncState(roomId, matchId, RoundId(round.handNumber), reason, timeMs,
                                Snapshot(recipient, eventSeq, PublicView(phase, round, players))))
    }

    method BroadcastSyncState(reason: SyncReason, now: Seat -> nat)
      modifies this`nextEventSeq, this`sent
      ensures Value() == BroadcastSync(old(Value()), reason, now)
    {
      var eventSeq := AllocateEventSeq();
      for k := 0 to 4
        invariant nextEventSeq == eventSeq + 1
        invariant sent == SyncSeats(CoreValue(), old(sent), k, eventSeq, reason, now)
      {
        var seat := SeatAt(k);
        if seat in playersBySeat && playersBySeat[seat].connected && playersBySeat[seat].outboundTx.Some? {
          var frame := BuildSyncStateFor(seat, eventSeq, reason, now(seat));
          SendFrame(playersBySeat[seat].outboundTx.value, frame);
        }
      }
    }

    /** The same frame to every listening slot, visited in whatever order the map yields them. */
    method NotifyListeners(frame: Frame)
      requires Valid()
      modifies this`sent
      ensures sent == NotifySeats(playersBySeat, old(sent), 4, frame)
    {
      var rest := playersBySeat;
      while rest != map[]
        invariant rest.Keys <= playersBySeat.Keys
        invariant NotifySeats(rest, sent, 4, frame) == NotifySeats(playersBySeat, old(sent), 4, frame)
        decreases |rest|
      {
        var next :| next in rest;
        ghost var j := if next == East then 0 else if next == South then 1 else if next == West then 2 else 3;
        NotifyOneFirst(rest, sent, j, 4, frame);
        if rest[next].connected && rest[next].outboundTx.Some? {
          SendFrame(rest[next].outboundTx.value, frame);
        }
        rest := rest - {next};
      }
      NotifyNobody(sent, 4, frame);
    }

    method BroadcastConnectionChanged(seat: Seat, connected: bool, now: Seat -> nat)
      requires Valid()
      modifies this`nextEventSeq, this`sent
      ensures Value() == BroadcastConnection(old(Value()), seat, connected, now)
    {
      if seat !in playersBySeat {
        return;
      }
      var userId, status := playersBySeat[seat].userId, playersBySeat[seat].status;
      var eventSeq := AllocateEventSeq();
      NotifyListeners(Frame(eventSeq, PlayerConnectionChanged(
        roomId, matchId, userId, seat, status, connected, if connected then 0 else now(seat) + RECONNECT_GRACE_MS)));
    }

    method SendRejectToConnection(c: ConnectionId, requestId: string, code: RejectCode, expected: nat, window: nat)
      modifies this`nextEventSeq, this`sent
      ensures Value() == Reject(old(Value()), c, requestId, code, expected, window)
    {
      if c !in connectionToUser {
        return;
      }
      var user := connectionToUser[c];
      if user !in userToSeat {
        return;
      }
      var seat := userToSeat[user];
      if seat !in playersBySeat || playersBySeat[seat].outboundTx.None? {
        return;
      }
      var eventSeq := AllocateEventSeq();
      SendFrame(playersBySeat[seat].outboundTx.value,
                Frame(eventSeq, ActionRejected(requestId, code, expected, eventSeq, window)));
    }

    /** A numbered join response to the asker. */
    method AnswerJoin(requestId: string, connection: ConnectionHandle, code: RejectCode, seat: Seat, token: string)
      modifies this`nextEventSeq, this`sent
      ensures Value() == Reply(old(Value()), connection.outboundTx,
                               JoinReply(old(Value()), requestId, connection, code, seat, token))
    {
      var eventSeq := AllocateEventSeq();
      SendFrame(connection.outboundTx, Frame(eventSeq, JoinRoom(
        requestId, code == NoReject, code, roomId, matchId, seat, connection.connectionId, token, eventSeq)));
    }

    // ---------- handlers ----------

    method HandleJoin(requestId: string, connection: ConnectionHandle, request: JoinRequest, now: Seat -> nat)
      requires Valid()
      modifies this
      ensures Value() == RoomSpec.HandleJoin(old(Value()), requestId, connection, request, now)
      ensures Valid()
    {
      if request.userId in userToSeat {
        AnswerJoin(requestId, connection, AlreadyJoined, userToSeat[request.userId], "");
        return;
      }
      var open := NextOpenSeat(playersBySeat);
      if open.None? {
        AnswerJoin(requestId, connection, SeatUnavailable, NoSeat, "");
        return;
      }
      var seat, token := open.value, ResumeToken(roomId, request.userId);
      connectionToUser := connectionToUser[connection.connectionId := request.userId];
      userToSeat := userToSeat[request.userId := seat];
      playersBySeat := playersBySeat[seat := PlayerSlot(
        request.userId, request.displayName, seat, Joined, INITIAL_SCORE, true, false,
        Some(connection.connectionId), Some(connection.outboundTx), token)];
      AnswerJoin(requestId, connection, NoReject, seat, token);
      BroadcastSyncState(ServerResync, now);
      BroadcastConnectionChanged(seat, true, now);
    }

    method HandleReady(requestId: string, c: ConnectionId, ready: bool, now: Seat -> nat)
      modifies this
      ensures Value() == RoomSpec.HandleReady(old(Value()), requestId, c, ready, now)
      ensures playersBySeat.Keys == old(playersBySeat).Keys
    {
      var seat := SeatForConnection(CoreValue(), c);
      if seat.None? {
        SendRejectToConnection(c, requestId, NotInRoom, 0, 0);
        return;
      }
      if seat.value in playersBySeat {
        var status := if ready then PlayerStatus.Ready else Joined;
        playersBySeat := playersBySeat[seat.value := playersBySeat[seat.value].(status := status)];
      }
      var allReady := AllReady(playersBySeat);
      phase := if allReady then Dealing else Lobby;
      BroadcastSyncState(if allReady then RoundStart else ServerResync, now);
    }

    /** A numbered rejection to the asker. */
    method RefuseResume(requestId: string, connection: ConnectionHandle, code: RejectCode, lastReceived: nat)
      modifies this`nextEventSeq, this`sent
      ensures Value() == Reply(old(Value()), connection.outboundTx,
                               Rejection(old(Value()), requestId, code, lastReceived, 0))
    {
      var refused := AllocateEventSeq();
      SendFrame(connection.outboundTx, Frame(refused, ActionRejected(requestId, code, lastReceived, refused, 0)));
    }

    /** The slot drops the connection it had and takes the new one. */
    method RebindSlot(seat: Seat, connection: ConnectionHandle)
      requires Valid() && seat in playersBySeat
      modifies this`connectionToUser, this`playersBySeat
      ensures Valid() && CoreValue() == Rebind(old(CoreValue()), seat, connection)
    {
      var player := playersBySeat[seat];
      if player.connectionId.Some? {
        connectionToUser := connectionToUser - {player.connectionId.value};
      }
      connectionToUser := connectionToUser[connection.connectionId := player.userId];
      playersBySeat := playersBySeat[seat := player.(
        connectionId := Some(connection.connectionId), connected := true, outboundTx := Some(connection.outboundTx))];
    }

    method HandleResume(requestId: string, connection: ConnectionHandle, request: ResumeRequest, now: Seat -> nat)
      requires Valid()
      modifies this
      ensures Value() == RoomSpec.HandleResume(old(Value()), requestId, connection, request, now)
      ensures Valid()
    {
      var refusal := None;
      if request.userId !in userToSeat {
        refusal := Some(NotInRoom);
      } else if userToSeat[request.userId] !in playersBySeat {
        refusal := Some(InternalError);
      } else if playersBySeat[userToSeat[request.userId]].resumeToken != request.resumeToken {
        refusal := Some(AuthFailed);
      }
      if refusal.Some? {
        RefuseResume(requestId, connection, refusal.value, request.lastReceivedEventSeq);
        return;
      }
      var seat := userToSeat[request.userId];
      RebindSlot(seat, connection);
      var eventSeq := AllocateEventSeq();
      var snapshot := BuildSyncStateFor(seat, eventSeq, Reconnect, now(seat));
      SendFrame(connection.outboundTx, snapshot);
      BroadcastConnectionChanged(seat, true, now);
    }

    method HandleAutoPlayToggle(seat: Seat, enabled: bool, now: Seat -> nat)
      modifies this
      ensures Value() == if seat in old(playersBySeat)
                         then BroadcastSync(old(Value()).(core := SetAutoPlay(old(CoreValue()), seat, enabled)),
                                            ServerResync, now)
                         else old(Value())
      ensures playersBySeat.Keys == old(playersBySeat).Keys
    {
      if seat !in playersBySeat {
        return;
      }
      playersBySeat := playersBySeat[seat := playersBySeat[seat].(autoPlayEnabled := enabled)];
      BroadcastSyncState(ServerResync, now);
    }

    /** Whatever the engine answers, the asker is told in one rejection. */
    method ReportAnswer(requestId: string, c: ConnectionId, answer: EngineAnswer, expected: nat, window: nat)
      modifies this`nextEventSeq, this`sent
      ensures Value() == Reject(old(Value()), c, requestId, EngineVerdict(answer), expected, window)
    {
      match answer {
        case Answered(isLegal, code) =>
          if isLegal {
            SendRejectToConnection(c, requestId, ActionNotAvailable, expected, window);
          } else {
            SendRejectToConnection(c, requestId, MapValidationRejectCode(code), expected, window);
          }
        case CallFailed =>
          SendRejectToConnection(c, requestId, InternalError, expected, window);
      }
    }

    /** The engine's answer is whatever arrives while this call is suspended on it. */
    method HandlePlayerAction(requestId: string, c: ConnectionId, request: ActionRequest, inputs: Inputs)
      modifies this
      ensures Value() == RoomSpec.HandlePlayerAction(old(Value()), requestId, c, request, inputs)
      ensures playersBySeat.Keys == old(playersBySeat).Keys
    {
      var expected, window := request.expectedEventSeq, request.actionWindowId;
      var seat := SeatForConnection(CoreValue(), c);
      if seat.None? {
        SendRejectToConnection(c, requestId, NotInRoom, expected, window);
        return;
      }
      if request.matchId != matchId {
        SendRejectToConnection(c, requestId, InvalidRequest, expected, window);
        return;
      }
      if request.roundId != RoundId(round.handNumber) {
        SendRejectToConnection(c, requestId, InvalidRequest, expected, window);
        return;
      }
      if request.action.None? {
        SendRejectToConnection(c, requestId, InvalidRequest, expected, window);
        return;
      }
      var action := request.action.value;
      if action.AutoPlayToggle? {
        HandleAutoPlayToggle(seat.value, action.enabled, inputs.now);
        return;
      }
      var current := if nextEventSeq == 0 then 0 else nextEventSeq - 1;
      var translated := Translation.BuildValidateRequest(
        roomId, matchId, round, Seated(playersBySeat), seat.value, current, window, action);
      if translated.Err? {
        SendRejectToConnection(c, requestId, translated.error, expected, window);
        return;
      }
      ReportAnswer(requestId, c, inputs.answer, expected, window);
    }

    method HandleDisconnect(c: ConnectionId, now: Seat -> nat)
      requires Valid()
      modifies this
      ensures Value() == RoomSpec.HandleDisconnect(old(Value()), c, now)
      ensures Valid()
    {
      if c !in connectionToUser {
        return;
      }
      var user := connectionToUser[c];
      connectionToUser := connectionToUser - {c};
      if user !in userToSeat {
        return;
      }
      var seat := userToSeat[user];
      if seat !in playersBySeat {
        return;
      }
      playersBySeat := playersBySeat[seat := playersBySeat[seat].(
        connected := false, connectionId := None, outboundTx := None)];
      BroadcastSyncState(ServerResync, now);
      BroadcastConnectionChanged(seat, false, now);
    }

    method HandleCommand(entry: Entry)
      requires Valid()
      modifies this
      ensures Value() == Step(old(Value()), entry)
      ensures Valid()
    {
      match entry.command {
        case Join(requestId, connection, join) => HandleJoin(requestId, connection, join, entry.inputs.now);
        case Ready(requestId, c, ready) => HandleReady(requestId, c, ready, entry.inputs.now);
        case ResumeSession(requestId, connection, resume) =>
          HandleResume(requestId, connection, resume, entry.inputs.now);
        case PlayerAction(requestId, c, request) => HandlePlayerAction(requestId, c, request, entry.inputs);
        case Disconnect(c) => HandleDisconnect(c, entry.inputs.now);
      }
    }
  }

  /** The room task: a fresh room that handles what its queue yields, one command at a time. */
  method RunRoomTask(roomId: RoomId, queue: seq<Entry>) returns (room: RoomState)
    ensures fresh(room) && room.Value() == Run(roomId, queue)
  {
    room := new RoomState(roomId);
    for i := 0 to |queue|
      invariant fresh(room) && room.Valid()
      invariant room.Value() == RunFrom(NewRoom(roomId), queue[..i])
    {
      room.HandleCommand(queue[i]);
      assert queue[..i + 1][..i] == queue[..i];
    }
    assert queue[..|queue|] == queue;
  }
}
