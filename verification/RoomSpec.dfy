// What each room command does, as a function of the room's value
// (src/room.rs:347-785, 1039-1145). RoomTask.dfy holds the in-place handlers
// and proves each of them against its function here.
module RoomSpec {
  import opened Wrappers
  import opened EngineProtocol
  import opened Protocol
  import Translation

  /** Who sits where, on which connection, and the phase derived from it. */
  datatype Core = Core(
    roomId: RoomId, matchId: string, round: RoundInfo, phase: GamePhase,
    playersBySeat: map<Seat, PlayerSlot>,
    userToSeat: map<UserId, Seat>,
    connectionToUser: map<ConnectionId, UserId>)

  /** A room: its core, the next event number, and all it has sent. */
  datatype Room = Room(core: Core, nextEventSeq: nat, sent: Outbox)

  function NewCore(roomId: RoomId): Core {
    Core(roomId, MatchId(roomId), RoundInfo(East, East, East, 1, 0, 144, 14), Lobby, map[], map[], map[])
  }

  function NewRoom(roomId: RoomId): Room {
    Room(NewCore(roomId), 1, map[])
  }

  // ---------- reading the core ----------

  function SeatForConnection(core: Core, c: ConnectionId): Option<Seat> {
    if c in core.connectionToUser && core.connectionToUser[c] in core.userToSeat
    then Some(core.userToSeat[core.connectionToUser[c]])
    else None
  }

  function NextOpenSeat(players: map<Seat, PlayerSlot>): Option<Seat> {
    if East !in players then Some(East)
    else if South !in players then Some(South)
    else if West !in players then Some(West)
    else if North !in players then Some(North)
    else None
  }

  predicate AllReady(players: map<Seat, PlayerSlot>) {
    |players| == SEAT_COUNT && forall seat | seat in players :: players[seat].status == PlayerStatus.Ready
  }

  predicate Listens(slot: PlayerSlot) {
    slot.connected && slot.outboundTx.Some?
  }

  predicate ListensAt(players: map<Seat, PlayerSlot>, seat: Seat) {
    seat in players && Listens(players[seat])
  }

  function PlayerStateOf(slot: PlayerSlot, dealer: Seat): PlayerState {
    PlayerState(slot.userId, slot.displayName, slot.seat, slot.status, slot.score,
                slot.seat == dealer, slot.connected, slot.autoPlayEnabled)
  }

  function Listed(players: map<Seat, PlayerSlot>, seat: Seat, dealer: Seat): seq<PlayerState> {
    if seat in players then [PlayerStateOf(players[seat], dealer)] else []
  }

  /** The occupied seats in SEAT_ORDER. */
  function PlayerList(players: map<Seat, PlayerSlot>, dealer: Seat): seq<PlayerState> {
    Listed(players, East, dealer) + Listed(players, South, dealer)
    + Listed(players, West, dealer) + Listed(players, North, dealer)
  }

  function PublicState(core: Core): PublicView {
    PublicView(core.phase, core.round, PlayerList(core.playersBySeat, core.round.dealerSeat))
  }

  // ---------- changing the core ----------

  function Enroll(core: Core, connection: ConnectionHandle, join: JoinRequest, seat: Seat): Core {
    core.(
      connectionToUser := core.connectionToUser[connection.connectionId := join.userId],
      userToSeat := core.userToSeat[join.userId := seat],
      playersBySeat := core.playersBySeat[seat := PlayerSlot(
        join.userId, join.displayName, seat, Joined, INITIAL_SCORE, true, false,
        Some(connection.connectionId), Some(connection.outboundTx),
        ResumeToken(core.roomId, join.userId))])
  }

  function MarkReady(core: Core, seat: Seat, ready: bool): Core {
    var players := if seat in core.playersBySeat
      then core.playersBySeat[seat := core.playersBySeat[seat].(
        status := if ready then PlayerStatus.Ready else Joined)]
      else core.playersBySeat;
    core.(playersBySeat := players, phase := if AllReady(players) then Dealing else Lobby)
  }

  function Rebind(core: Core, seat: Seat, connection: ConnectionHandle): Core
    requires seat in core.playersBySeat
  {
    var slot := core.playersBySeat[seat];
    var dropped := if slot.connectionId.Some?
      then core.connectionToUser - {slot.connectionId.value}
      else core.connectionToUser;
    core.(
      connectionToUser := dropped[connection.connectionId := slot.userId],
      playersBySeat := core.playersBySeat[seat := slot.(
        connectionId := Some(connection.connectionId),
        connected := true,
        outboundTx := Some(connection.outboundTx))])
  }

  function Forget(core: Core, c: ConnectionId): Core {
    core.(connectionToUser := core.connectionToUser - {c})
  }

  function Unseat(core: Core, seat: Seat): Core
    requires seat in core.playersBySeat
  {
    core.(playersBySeat := core.playersBySeat[seat := core.playersBySeat[seat].(
      connected := false, connectionId := None, outboundTx := None)])
  }

  function SetAutoPlay(core: Core, seat: Seat, enabled: bool): Core
    requires seat in core.playersBySeat
  {
    core.(playersBySeat := core.playersBySeat[seat := core.playersBySeat[seat].(autoPlayEnabled := enabled)])
  }

  // ---------- sending ----------

  /** One frame, with a number of its own, to one channel. */
  function Reply(r: Room, ch: Channel, payload: Payload): Room {
    Room(r.core, r.nextEventSeq + 1, Send(r.sent, ch, Frame(r.nextEventSeq, payload)))
  }

  function JoinReply(r: Room, requestId: string, connection: ConnectionHandle,
                     code: RejectCode, seat: Seat, token: string): Payload {
    JoinRoom(requestId, code == NoReject, code, r.core.roomId, r.core.matchId, seat,
             connection.connectionId, token, r.nextEventSeq)
  }

  function Rejection(r: Room, requestId: string, code: RejectCode, expected: nat, window: nat): Payload {
    ActionRejected(requestId, code, expected, r.nextEventSeq, window)
  }

  function SyncPayload(core: Core, recipient: Seat, eventSeq: nat, reason: SyncReason, timeMs: nat): Payload {
    SyncState(core.roomId, core.matchId, RoundId(core.round.handNumber), reason, timeMs,
              Snapshot(recipient, eventSeq, PublicState(core)))
  }

  function SyncSeat(core: Core, out: Outbox, seat: Seat, eventSeq: nat, reason: SyncReason, now: Seat -> nat): Outbox {
    if ListensAt(core.playersBySeat, seat)
    then Send(out, core.playersBySeat[seat].outboundTx.value,
              Frame(eventSeq, SyncPayload(core, seat, eventSeq, reason, now(seat))))
    else out
  }

  /** A snapshot to each listening seat among the first k of SEAT_ORDER. */
  function SyncSeats(core: Core, out: Outbox, k: nat, eventSeq: nat, reason: SyncReason, now: Seat -> nat): Outbox
    requires k <= 4
  {
    if k == 0 then out
    else SyncSeat(core, SyncSeats(core, out, k - 1, eventSeq, reason, now), SeatAt(k - 1), eventSeq, reason, now)
  }

  function BroadcastSync(r: Room, reason: SyncReason, now: Seat -> nat): Room {
    Room(r.core, r.nextEventSeq + 1, SyncSeats(r.core, r.sent, 4, r.nextEventSeq, reason, now))
  }

  function NotifySeat(players: map<Seat, PlayerSlot>, out: Outbox, seat: Seat, frame: Frame): Outbox {
    if ListensAt(players, seat) then Send(out, players[seat].outboundTx.value, frame) else out
  }

  /** The same frame to each listening seat among the first k of SEAT_ORDER. */
  function NotifySeats(players: map<Seat, PlayerSlot>, out: Outbox, k: nat, frame: Frame): Outbox
    requires k <= 4
  {
    if k == 0 then out
    else NotifySeat(players, NotifySeats(players, out, k - 1, frame), SeatAt(k - 1), frame)
  }

  function ConnectionPayload(core: Core, seat: Seat, connected: bool, now: Seat -> nat): Payload
    requires seat in core.playersBySeat
  {
    PlayerConnectionChanged(core.roomId, core.matchId, core.playersBySeat[seat].userId, seat,
                            core.playersBySeat[seat].status, connected,
                            if connected then 0 else now(seat) + RECONNECT_GRACE_MS)
  }

  function BroadcastConnection(r: Room, seat: Seat, connected: bool, now: Seat -> nat): Room {
    if seat !in r.core.playersBySeat then r
    else Room(r.core, r.nextEventSeq + 1,
              NotifySeats(r.core.playersBySeat, r.sent, 4,
                          Frame(r.nextEventSeq, ConnectionPayload(r.core, seat, connected, now))))
  }

  /** The channel send_reject_to_connection finds, if its lookups succeed. */
  function ChannelFor(core: Core, c: ConnectionId): Option<Channel> {
    var seat := SeatForConnection(core, c);
    if seat.Some? && seat.value in core.playersBySeat
    then core.playersBySeat[seat.value].outboundTx
    else None
  }

  function Reject(r: Room, c: ConnectionId, requestId: string, code: RejectCode, expected: nat, window: nat): Room {
    match ChannelFor(r.core, c)
    case None => r
    case Some(ch) => Reply(r, ch, Rejection(r, requestId, code, expected, window))
  }

  // ---------- handlers ----------

  function HandleJoin(r: Room, requestId: string, connection: ConnectionHandle, join: JoinRequest,
                      now: Seat -> nat): Room {
    var ch := connection.outboundTx;
    if join.userId in r.core.userToSeat then
      Reply(r, ch, JoinReply(r, requestId, connection, AlreadyJoined, r.core.userToSeat[join.userId], ""))
    else
      match NextOpenSeat(r.core.playersBySeat)
      case None => Reply(r, ch, JoinReply(r, requestId, connection, SeatUnavailable, NoSeat, ""))
      case Some(seat) =>
        var joined := r.(core := Enroll(r.core, connection, join, seat));
        var told := Reply(joined, ch, JoinReply(joined, requestId, connection, NoReject, seat,
                                                ResumeToken(r.core.roomId, join.userId)));
        BroadcastConnection(BroadcastSync(told, ServerResync, now), seat, true, now)
  }

  function HandleReady(r: Room, requestId: string, c: ConnectionId, ready: bool, now: Seat -> nat): Room {
    match SeatForConnection(r.core, c)
    case None => Reject(r, c, requestId, NotInRoom, 0, 0)
    case Some(seat) =>
      var core := MarkReady(r.core, seat, ready);
      BroadcastSync(r.(core := core), if AllReady(core.playersBySeat) then RoundStart else ServerResync, now)
  }

  function ResumeRefusal(core: Core, resume: ResumeRequest): Option<RejectCode> {
    if resume.userId !in core.userToSeat then Some(NotInRoom)
    else if core.userToSeat[resume.userId] !in core.playersBySeat then Some(InternalError)
    else if core.playersBySeat[core.userToSeat[resume.userId]].resumeToken != resume.resumeToken then Some(AuthFailed)
    else None
  }

  function HandleResume(r: Room, requestId: string, connection: ConnectionHandle, resume: ResumeRequest,
                        now: Seat -> nat): Room {
    var ch := connection.outboundTx;
    match ResumeRefusal(r.core, resume)
    case Some(code) => Reply(r, ch, Rejection(r, requestId, code, resume.lastReceivedEventSeq, 0))
    case None =>
      var seat := r.core.userToSeat[resume.userId];
      var back := r.(core := Rebind(r.core, seat, connection));
      var synced := Reply(back, ch, SyncPayload(back.core, seat, back.nextEventSeq, Reconnect, now(seat)));
      BroadcastConnection(synced, seat, true, now)
  }

  /** How far a player action gets before the rule engine is asked. */
  datatype Screening =
    | Unregistered
    | Refused(code: RejectCode)
    | Toggle(seat: Seat, enabled: bool)
    | Submit(seat: Seat, action: ClientAction)

  function Screen(core: Core, c: ConnectionId, request: ActionRequest): Screening {
    match SeatForConnection(core, c)
    case None => Unregistered
    case Some(seat) =>
      if request.matchId != core.matchId then Refused(InvalidRequest)
      else if request.roundId != RoundId(core.round.handNumber) then Refused(InvalidRequest)
      else match request.action
        case None => Refused(InvalidRequest)
        case Some(AutoPlayToggle(enabled)) => Toggle(seat, enabled)
        case Some(action) => Submit(seat, action)
  }

  /** The last number handed out; saturating, as the source writes it. */
  function CurrentEventSeq(r: Room): nat {
    if r.nextEventSeq == 0 then 0 else r.nextEventSeq - 1
  }

  /** The occupied seats in SEAT_ORDER. */
  function Seated(players: map<Seat, PlayerSlot>): seq<Seat> {
    (if East in players then [East] else []) + (if South in players then [South] else [])
    + (if West in players then [West] else []) + (if North in players then [North] else [])
  }

  function EngineRequest(r: Room, seat: Seat, request: ActionRequest, action: ClientAction)
    : Result<ValidationRequest, RejectCode>
  {
    Translation.BuildValidateRequest(r.core.roomId, r.core.matchId, r.core.round, Seated(r.core.playersBySeat), seat,
                                     CurrentEventSeq(r), request.actionWindowId, action)
  }

  /** True when handling this command suspends the room task on the rule engine. */
  predicate AsksEngine(r: Room, command: Command) {
    && command.PlayerAction?
    && var screening := Screen(r.core, command.connectionId, command.request);
       && screening.Submit?
       && EngineRequest(r, screening.seat, command.request, screening.action).Ok?
  }

  function MapValidationRejectCode(code: int): RejectCode {
    if code == REJECT_INVALID_CONTEXT then InvalidRequest
    else if code == REJECT_TILE_NOT_OWNED || code == REJECT_TILE_NOT_AVAILABLE then InvalidTile
    else if code == REJECT_ACTION_WINDOW_MISMATCH then ActionWindowClosed
    else if code == REJECT_INTERNAL_ERROR then InternalError
    else RuleValidationFailed
  }

  function EngineVerdict(answer: EngineAnswer): RejectCode {
    match answer
    case Answered(isLegal, code) => if isLegal then ActionNotAvailable else MapValidationRejectCode(code)
    case CallFailed => InternalError
  }

  /** The code an action other than a toggle is rejected with. */
  function ActionCode(r: Room, screening: Screening, request: ActionRequest, answer: EngineAnswer): RejectCode
    requires !screening.Toggle?
  {
    match screening
    case Unregistered => NotInRoom
    case Refused(code) => code
    case Submit(seat, action) =>
      var translated := EngineRequest(r, seat, request, action);
      if translated.Err? then translated.error else EngineVerdict(answer)
  }

  function HandlePlayerAction(r: Room, requestId: string, c: ConnectionId, request: ActionRequest,
                              inputs: Inputs): Room {
    var screening := Screen(r.core, c, request);
    if screening.Toggle? then
      if screening.seat in r.core.playersBySeat
      then BroadcastSync(r.(core := SetAutoPlay(r.core, screening.seat, screening.enabled)), ServerResync, inputs.now)
      else r
    else Reject(r, c, requestId, ActionCode(r, screening, request, inputs.answer),
                request.expectedEventSeq, request.actionWindowId)
  }

  function HandleDisconnect(r: Room, c: ConnectionId, now: Seat -> nat): Room {
    if c !in r.core.connectionToUser then r
    else
      var user := r.core.connectionToUser[c];
      var core := Forget(r.core, c);
      if user !in core.userToSeat || core.userToSeat[user] !in core.playersBySeat then r.(core := core)
      else
        var seat := core.userToSeat[user];
        var gone := r.(core := Unseat(core, seat));
        BroadcastConnection(BroadcastSync(gone, ServerResync, now), seat, false, now)
  }

  function Step(r: Room, entry: Entry): Room {
    var inputs := entry.inputs;
    match entry.command
    case Join(requestId, connection, join) => HandleJoin(r, requestId, connection, join, inputs.now)
    case Ready(requestId, c, ready) => HandleReady(r, requestId, c, ready, inputs.now)
    case ResumeSession(requestId, connection, resume) => HandleResume(r, requestId, connection, resume, inputs.now)
    case PlayerAction(requestId, c, request) => HandlePlayerAction(r, requestId, c, request, inputs)
    case Disconnect(c) => HandleDisconnect(r, c, inputs.now)
  }

  /** A room after a whole script of commands, each with the inputs it met. */
  function RunFrom(r: Room, script: seq<Entry>): Room {
    if script == [] then r
    else
      var last := |script| - 1;
      Step(RunFrom(r, script[..last]), script[last])
  }

  function Run(roomId: RoomId, script: seq<Entry>): Room {
    RunFrom(NewRoom(roomId), script)
  }

  lemma RunOneMore(roomId: RoomId, script: seq<Entry>, entry: Entry)
    ensures Run(roomId, script + [entry]) == Step(Run(roomId, script), entry)
  {
    assert (script + [entry])[..|script|] == script;
  }

  lemma {:induction false} RunFromConcat(r: Room, first: seq<Entry>, second: seq<Entry>)
    ensures RunFrom(r, first + second) == RunFrom(RunFrom(r, first), second)
  {
    if second == [] {
      assert first + second == first;
    } else {
      var last := |second| - 1;
      assert (first + second)[..|first + second| - 1] == first + second[..last];
      RunFromConcat(r, first, second[..last]);
    }
  }
}
