// The vocabulary of the room server: seats, slots, client requests, server
// frames and the outbound channels they are sent on (src/room.rs, src/ws.rs).
module Protocol {
  import opened Wrappers

  type RoomId = string
  type UserId = string
  type ConnectionId = string
  type Channel = nat

  datatype Seat = NoSeat | East | South | West | North

  /** The k-th entry of SEAT_ORDER. */
  function SeatAt(k: nat): Seat
    requires k < 4
  {
    if k == 0 then East else if k == 1 then South else if k == 2 then West else North
  }

  const SEAT_COUNT: nat := 4
  const INITIAL_SCORE: int := 25_000
  const RECONNECT_GRACE_MS: nat := 30_000

  datatype PlayerStatus =
    | UnknownStatus | Joined | Ready | Playing | Disconnected | Reconnecting | AutoPlay | Left

  datatype GamePhase =
    | UnknownPhase | Lobby | Dealing | ReplacingFlower | Drawing | WaitingDiscard
    | WaitingClaim | ResolvingKong | RoundSettlement | MatchSettlement

  datatype RejectCode =
    | NoReject | InvalidRequest | AuthFailed | RoomNotFound | MatchAlreadyStarted
    | SeatUnavailable | AlreadyJoined | NotInRoom | PhaseMismatch | NotYourTurn
    | ActionWindowClosed | StaleEventSeq | InvalidTile | ActionNotAvailable
    | RuleValidationFailed | InternalError

  datatype SyncReason = InitialJoin | Reconnect | ServerResync | RoundStart

  /** The round header of the room: no handler changes any of it. */
  datatype RoundInfo = RoundInfo(
    prevailingWind: Seat, dealerSeat: Seat, currentTurnSeat: Seat,
    handNumber: nat, dealerStreak: nat,
    wallTilesRemaining: nat, deadWallTilesRemaining: nat)

  datatype PlayerSlot = PlayerSlot(
    userId: UserId, displayName: string, seat: Seat, status: PlayerStatus, score: int,
    connected: bool, autoPlayEnabled: bool,
    connectionId: Option<ConnectionId>, outboundTx: Option<Channel>, resumeToken: string)

  // ---------- client requests ----------

  datatype ConnectionHandle = ConnectionHandle(connectionId: ConnectionId, outboundTx: Channel)

  datatype JoinRequest = JoinRequest(roomId: RoomId, userId: UserId, displayName: string)

  datatype ResumeRequest = ResumeRequest(
    roomId: RoomId, userId: UserId, resumeToken: string, lastReceivedEventSeq: nat)

  /** Enum-valued fields are the raw protobuf numbers the client sent. */
  datatype ClientAction =
    | Discard(tile: int, tsumogiri: bool)
    | Claim(claimKind: int, targetTile: int, consumeTiles: seq<int>, sourceSeat: int, sourceEventSeq: nat)
    | DeclareWin(winType: int, winningTile: int, sourceSeat: int, sourceEventSeq: nat)
    | Pass(sourceEventSeq: nat)
    | SupplementalKong(tile: int)
    | AutoPlayToggle(enabled: bool)

  datatype ActionRequest = ActionRequest(
    roomId: RoomId, matchId: string, roundId: string,
    expectedEventSeq: nat, actionWindowId: nat, action: Option<ClientAction>)

  datatype Command =
    | Join(requestId: string, connection: ConnectionHandle, join: JoinRequest)
    | Ready(requestId: string, connectionId: ConnectionId, ready: bool)
    | ResumeSession(requestId: string, connection: ConnectionHandle, resume: ResumeRequest)
    | PlayerAction(requestId: string, connectionId: ConnectionId, request: ActionRequest)
    | Disconnect(connectionId: ConnectionId)

  /** What the rule engine answers to a validation call, whenever it does. */
  datatype EngineAnswer = Answered(isLegal: bool, rejectCode: int) | CallFailed

  /**
   * What a command meets while it is handled: the wall-clock reading taken for
   * each seat's frame, and the rule engine's answer.
   */
  datatype Inputs = Inputs(now: Seat -> nat, answer: EngineAnswer)

  datatype Entry = Entry(command: Command, inputs: Inputs)

  // ---------- server frames ----------

  datatype PlayerState = PlayerState(
    userId: UserId, displayName: string, seat: Seat, status: PlayerStatus, score: int,
    isDealer: bool, isConnected: bool, autoPlayEnabled: bool)

  /** The part of a snapshot that is the same for every recipient. */
  datatype PublicView = PublicView(phase: GamePhase, round: RoundInfo, players: seq<PlayerState>)

  datatype Snapshot = Snapshot(selfSeat: Seat, latestEventSeq: nat, table: PublicView)

  datatype Payload =
    | JoinRoom(requestId: string, accepted: bool, rejectCode: RejectCode, roomId: RoomId,
               matchId: string, seat: Seat, connectionId: ConnectionId, resumeToken: string,
               latestEventSeq: nat)
    | SyncState(roomId: RoomId, matchId: string, roundId: string, reason: SyncReason,
                serverTimeMs: nat, snapshot: Snapshot)
    | PlayerConnectionChanged(roomId: RoomId, matchId: string, userId: UserId, seat: Seat,
                              status: PlayerStatus, connected: bool, reconnectDeadlineMs: nat)
    | ActionRejected(requestId: string, rejectCode: RejectCode, expectedEventSeq: nat,
                     actualEventSeq: nat, actionWindowId: nat)

  datatype Frame = Frame(eventSeq: nat, payload: Payload)

  // ---------- outbound channels ----------

  /** Everything one room has sent so far, channel by channel. */
  type Outbox = map<Channel, seq<Frame>>

  function Log(out: Outbox, ch: Channel): seq<Frame> {
    if ch in out then out[ch] else []
  }

  function Send(out: Outbox, ch: Channel, frame: Frame): Outbox {
    out[ch := Log(out, ch) + [frame]]
  }

  // ---------- decimal numerals ----------

  function Digit(d: nat): char
    requires d < 10
  {
    '0' + d as char
  }

  function Decimal(n: nat): (s: string)
    ensures s != []
  {
    if n < 10 then [Digit(n)] else Decimal(n / 10) + [Digit(n % 10)]
  }

  /** The number a numeral stands for. */
  function Reading(s: string): int {
    if s == [] then 0 else 10 * Reading(s[..|s| - 1]) + s[|s| - 1] as int - '0' as int
  }

  /** A numeral is made of digits and reads as its number. */
  lemma {:induction false} DecimalReadsBack(n: nat)
    ensures Reading(Decimal(n)) == n
    ensures forall i | 0 <= i < |Decimal(n)| :: '0' <= Decimal(n)[i] <= '9'
  {
    var s := Decimal(n);
    if n < 10 {
      assert s[..0] == [];
    } else {
      DecimalReadsBack(n / 10);
      assert s[..|s| - 1] == Decimal(n / 10);
    }
  }

  /** Different numbers print differently, so numbered names are distinct. */
  lemma DecimalInjective(m: nat, n: nat)
    ensures Decimal(m) == Decimal(n) ==> m == n
  {
    DecimalReadsBack(m);
    DecimalReadsBack(n);
  }

  function MatchId(roomId: RoomId): string { "match-" + roomId }

  function ResumeToken(roomId: RoomId, userId: UserId): string { "resume-" + roomId + "-" + userId }

  function RoundId(handNumber: nat): string { "hand-" + Decimal(handNumber) }
}
