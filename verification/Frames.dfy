// What every frame that a room sends says, told field by field from the request,
// the clock, the rule engine's answer and the slots (src/room.rs:403-785,
// 1039-1291).
module Frames {
  import opened Wrappers
  import opened Protocol
  import opened RoomSpec
  import opened RoomCore
  import opened Replica
  import opened Requests
  import opened Table
  import Asking
  import Numbering
  import PlayerActions

  // ---------- the four kinds of frame ----------

  /** The table as it is, for a seat that the channel feeds, with the clock read for that seat. */
  ghost predicate SnapshotSays(core: Core, reason: SyncReason, now: Seat -> nat, ch: Channel, f: Frame) {
    && f.payload.SyncState?
    && f.payload.roomId == core.roomId && f.payload.matchId == core.matchId
    && f.payload.roundId == "hand-" + Decimal(core.round.handNumber)
    && f.payload.reason == reason
    && Feeds(core, ch, f.payload.snapshot.selfSeat)
    && f.payload.serverTimeMs == now(f.payload.snapshot.selfSeat)
    && f.payload.snapshot.latestEventSeq == f.eventSeq
    && ShowsTable(f.payload.snapshot.table, core)
  }

  /** One player came or went; whoever went has half a minute to come back. */
  ghost predicate NoticeSays(core: Core, seat: Seat, connected: bool, now: Seat -> nat, ch: Channel, f: Frame) {
    && f.payload.PlayerConnectionChanged? && seat in core.playersBySeat
    && f.payload.roomId == core.roomId && f.payload.matchId == core.matchId
    && f.payload.seat == seat
    && f.payload.userId == core.playersBySeat[seat].userId && f.payload.status == core.playersBySeat[seat].status
    && f.payload.connected == connected
    && f.payload.reconnectDeadlineMs == (if connected then 0 else now(seat) + 30_000)
    && exists s :: Feeds(core, ch, s)
  }

  ghost predicate JoinAnswerSays(core: Core, requestId: string, connection: ConnectionHandle, code: RejectCode,
                                 seat: Seat, token: string, ch: Channel, f: Frame) {
    && ch == connection.outboundTx && f.payload.JoinRoom?
    && f.payload.requestId == requestId && f.payload.connectionId == connection.connectionId
    && f.payload.roomId == core.roomId && f.payload.matchId == core.matchId
    && f.payload.rejectCode == code && (f.payload.accepted <==> code == NoReject)
    && f.payload.seat == seat && f.payload.resumeToken == token
    && f.payload.latestEventSeq == f.eventSeq
  }

  ghost predicate RejectionSays(requestId: string, code: RejectCode, expected: nat, window: nat, f: Frame) {
    && f.payload.ActionRejected?
    && f.payload.requestId == requestId && f.payload.rejectCode == code
    && f.payload.expectedEventSeq == expected && f.payload.actualEventSeq == f.eventSeq
    && f.payload.actionWindowId == window
  }

  // ---------- what each command has the room say ----------

  /** The join's answer; if it is granted, then a snapshot and a notice to whoever listens. */
  ghost predicate JoinSays(core: Core, next: Core, n: nat, command: Command, now: Seat -> nat, ch: Channel, f: Frame)
    requires command.Join?
  {
    var user, id, connection := command.join.userId, command.requestId, command.connection;
    if user in core.userToSeat then
      f.eventSeq == n && JoinAnswerSays(core, id, connection, AlreadyJoined, core.userToSeat[user], "", ch, f)
    else if Full(core.playersBySeat) then
      f.eventSeq == n && JoinAnswerSays(core, id, connection, SeatUnavailable, NoSeat, "", ch, f)
    else
      && user in next.userToSeat && FirstOpen(core.playersBySeat, next.userToSeat[user])
      && (|| (f.eventSeq == n && JoinAnswerSays(core, id, connection, NoReject, next.userToSeat[user],
                                                "resume-" + core.roomId + "-" + user, ch, f))
          || (f.eventSeq == n + 1 && SnapshotSays(next, ServerResync, now, ch, f))
          || (f.eventSeq == n + 2 && NoticeSays(next, next.userToSeat[user], true, now, ch, f)))
  }

  /** A snapshot, which announces the round if and only if all four are ready. */
  ghost predicate ReadySays(core: Core, next: Core, n: nat, command: Command, now: Seat -> nat, ch: Channel, f: Frame)
    requires command.Ready?
  {
    && command.connectionId in core.connectionToUser && f.eventSeq == n
    && SnapshotSays(next, if FourReady(next.playersBySeat) then RoundStart else ServerResync, now, ch, f)
  }

  /** A rejection; or a snapshot to the player who is back, and a notice to whoever listens. */
  ghost predicate ResumeSays(core: Core, next: Core, n: nat, command: Command, now: Seat -> nat, ch: Channel, f: Frame)
    requires command.ResumeSession?
  {
    var user, tx, last := command.resume.userId, command.connection.outboundTx, command.resume.lastReceivedEventSeq;
    if user !in core.userToSeat then
      ch == tx && f.eventSeq == n && RejectionSays(command.requestId, NotInRoom, last, 0, f)
    else
      var seat := core.userToSeat[user];
      && seat in core.playersBySeat
      && if core.playersBySeat[seat].resumeToken != command.resume.resumeToken then
           ch == tx && f.eventSeq == n && RejectionSays(command.requestId, AuthFailed, last, 0, f)
         else
           || (ch == tx && f.eventSeq == n && SnapshotSays(next, Reconnect, now, ch, f)
               && f.payload.snapshot.selfSeat == seat)
           || (f.eventSeq == n + 1 && NoticeSays(next, seat, true, now, ch, f))
  }

  /** A snapshot after a toggle that names match and round, and a rejection to the asker after anything else. */
  ghost predicate ActionSays(core: Core, next: Core, n: nat, command: Command, inputs: Inputs, ch: Channel, f: Frame)
    requires command.PlayerAction?
  {
    && command.connectionId in core.connectionToUser && core.connectionToUser[command.connectionId] in core.userToSeat
    && f.eventSeq == n
    && if Asking.MatchingToggle(core, command.request)
       then SnapshotSays(next, ServerResync, inputs.now, ch, f)
       else
         && Feeds(core, ch, core.userToSeat[core.connectionToUser[command.connectionId]])
         && f.payload.ActionRejected?
         && RejectionSays(command.requestId, f.payload.rejectCode, command.request.expectedEventSeq,
                          command.request.actionWindowId, f)
         && Asking.RejectedFor(core, command.request, inputs.answer, f.payload.rejectCode)
  }

  /** A snapshot and a notice to whoever still listens. */
  ghost predicate DisconnectSays(core: Core, next: Core, n: nat, command: Command, now: Seat -> nat, ch: Channel, f: Frame)
    requires command.Disconnect?
  {
    && command.connectionId in core.connectionToUser && core.connectionToUser[command.connectionId] in core.userToSeat
    && (|| (f.eventSeq == n && SnapshotSays(next, ServerResync, now, ch, f))
        || (f.eventSeq == n + 1
            && NoticeSays(next, core.userToSeat[core.connectionToUser[command.connectionId]], false, now, ch, f)))
  }

  ghost predicate Says(core: Core, next: Core, n: nat, entry: Entry, ch: Channel, f: Frame) {
    match entry.command
    case Join(_, _, _) => JoinSays(core, next, n, entry.command, entry.inputs.now, ch, f)
    case Ready(_, _, _) => ReadySays(core, next, n, entry.command, entry.inputs.now, ch, f)
    case ResumeSession(_, _, _) => ResumeSays(core, next, n, entry.command, entry.inputs.now, ch, f)
    case PlayerAction(_, _, _) => ActionSays(core, next, n, entry.command, entry.inputs, ch, f)
    case Disconnect(_) => DisconnectSays(core, next, n, entry.command, entry.inputs.now, ch, f)
  }

  // ---------- broadcasts ----------

  lemma SnapshotFrameSays(core: Core, seat: Seat, eventSeq: nat, reason: SyncReason, now: Seat -> nat, ch: Channel)
    requires Feeds(core, ch, seat)
    ensures SnapshotSays(core, reason, now, ch, Frame(eventSeq, SyncPayload(core, seat, eventSeq, reason, now(seat))))
  {
    PublicStateShows(core);
  }

  lemma {:induction false} SyncSeatsSay(core: Core, out: Outbox, k: nat, eventSeq: nat, reason: SyncReason,
                                        now: Seat -> nat, ch: Channel, f: Frame)
    requires k <= 4 && f in Log(SyncSeats(core, out, k, eventSeq, reason, now), ch)
    ensures f in Log(out, ch) || (f.eventSeq == eventSeq && SnapshotSays(core, reason, now, ch, f))
  {
    if k != 0 {
      var seat, before := SeatAt(k - 1), SyncSeats(core, out, k - 1, eventSeq, reason, now);
      if f in Log(before, ch) {
        SyncSeatsSay(core, out, k - 1, eventSeq, reason, now, ch, f);
      } else {
        SnapshotFrameSays(core, seat, eventSeq, reason, now, ch);
      }
    }
  }

  lemma SyncSays(r: Room, reason: SyncReason, now: Seat -> nat, ch: Channel, f: Frame)
    requires f in Log(BroadcastSync(r, reason, now).sent, ch)
    ensures f in Log(r.sent, ch) || (f.eventSeq == r.nextEventSeq && SnapshotSays(r.core, reason, now, ch, f))
  {
    SyncSeatsSay(r.core, r.sent, 4, r.nextEventSeq, reason, now, ch, f);
  }

  lemma {:induction false} NotifySeatsReach(core: Core, out: Outbox, k: nat, frame: Frame, ch: Channel, f: Frame)
    requires k <= 4 && f in Log(NotifySeats(core.playersBySeat, out, k, frame), ch)
    ensures f in Log(out, ch) || (f == frame && exists s :: Feeds(core, ch, s))
  {
    if k != 0 {
      if f in Log(NotifySeats(core.playersBySeat, out, k - 1, frame), ch) {
        NotifySeatsReach(core, out, k - 1, frame, ch, f);
      } else {
        assert Feeds(core, ch, SeatAt(k - 1));
      }
    }
  }

  lemma ConnectionSays(r: Room, seat: Seat, connected: bool, now: Seat -> nat, ch: Channel, f: Frame)
    requires f in Log(BroadcastConnection(r, seat, connected, now).sent, ch)
    ensures f in Log(r.sent, ch) || (f.eventSeq == r.nextEventSeq && NoticeSays(r.core, seat, connected, now, ch, f))
  {
    if seat in r.core.playersBySeat {
      NotifySeatsReach(r.core, r.sent, 4, Frame(r.nextEventSeq, ConnectionPayload(r.core, seat, connected, now)), ch, f);
    }
  }

  // ---------- commands ----------

  /** A broadcast of both kinds, one after the other. */
  lemma BothSay(r: Room, seat: Seat, connected: bool, now: Seat -> nat, ch: Channel, f: Frame)
    requires f in Log(BroadcastConnection(BroadcastSync(r, ServerResync, now), seat, connected, now).sent, ch)
    ensures || f in Log(r.sent, ch)
            || (f.eventSeq == r.nextEventSeq && SnapshotSays(r.core, ServerResync, now, ch, f))
            || (f.eventSeq == r.nextEventSeq + 1 && NoticeSays(r.core, seat, connected, now, ch, f))
  {
    var synced := BroadcastSync(r, ServerResync, now);
    ConnectionSays(synced, seat, connected, now, ch, f);
    if f in Log(synced.sent, ch) {
      SyncSays(r, ServerResync, now, ch, f);
    }
  }

  lemma GrantedAnswerSays(core: Core, next: Core, n: nat, out: Outbox, requestId: string, connection: ConnectionHandle,
                          user: UserId, seat: Seat, ch: Channel, f: Frame)
    requires next.roomId == core.roomId && next.matchId == core.matchId
    requires f in Log(Reply(Room(next, n, out), connection.outboundTx,
                            JoinReply(Room(next, n, out), requestId, connection, NoReject, seat,
                                      ResumeToken(core.roomId, user))).sent, ch)
    ensures f in Log(out, ch)
         || (f.eventSeq == n && JoinAnswerSays(core, requestId, connection, NoReject, seat,
                                               "resume-" + core.roomId + "-" + user, ch, f))
  {
  }

  lemma GrantedJoinSays(r: Room, joined: Room, command: Command, now: Seat -> nat, seat: Seat, ch: Channel, f: Frame)
    requires command.Join? && command.join.userId !in r.core.userToSeat
    requires FirstOpen(r.core.playersBySeat, seat) && !Full(r.core.playersBySeat)
    requires joined == r.(core := Enroll(r.core, command.connection, command.join, seat))
    requires var told := Reply(joined, command.connection.outboundTx,
                               JoinReply(joined, command.requestId, command.connection, NoReject, seat,
                                         ResumeToken(r.core.roomId, command.join.userId)));
             f in Log(BroadcastConnection(BroadcastSync(told, ServerResync, now), seat, true, now).sent, ch)
    ensures f in Log(r.sent, ch) || JoinSays(r.core, joined.core, r.nextEventSeq, command, now, ch, f)
  {
    var told := Reply(joined, command.connection.outboundTx,
                      JoinReply(joined, command.requestId, command.connection, NoReject, seat,
                                ResumeToken(r.core.roomId, command.join.userId)));
    BothSay(told, seat, true, now, ch, f);
    if f in Log(told.sent, ch) {
      GrantedAnswerSays(r.core, joined.core, r.nextEventSeq, r.sent, command.requestId, command.connection,
                        command.join.userId, seat, ch, f);
    }
  }

  lemma JoinStepSays(r: Room, entry: Entry, ch: Channel, f: Frame)
    requires entry.command.Join? && f in Log(Step(r, entry).sent, ch)
    ensures f in Log(r.sent, ch) || JoinSays(r.core, Step(r, entry).core, r.nextEventSeq, entry.command, entry.inputs.now, ch, f)
  {
    var command, open := entry.command, NextOpenSeat(r.core.playersBySeat);
    if command.join.userId !in r.core.userToSeat && open.Some? {
      var joined := r.(core := Enroll(r.core, command.connection, command.join, open.value));
      GrantedJoinSays(r, joined, command, entry.inputs.now, open.value, ch, f);
    }
  }

  lemma ReadyStepSays(r: Room, entry: Entry, ch: Channel, f: Frame)
    requires Linked(r.core) && entry.command.Ready? && f in Log(Step(r, entry).sent, ch)
    ensures f in Log(r.sent, ch) || ReadySays(r.core, Step(r, entry).core, r.nextEventSeq, entry.command, entry.inputs.now, ch, f)
  {
    var seat := SeatForConnection(r.core, entry.command.connectionId);
    if seat.Some? {
      var core := MarkReady(r.core, seat.value, entry.command.ready);
      FourReadyIff(core.playersBySeat);
      SyncSays(r.(core := core), if AllReady(core.playersBySeat) then RoundStart else ServerResync, entry.inputs.now, ch, f);
    }
  }

  lemma GrantedResumeSays(r: Room, entry: Entry, seat: Seat, ch: Channel, f: Frame)
    requires entry.command.ResumeSession? && ResumeRefusal(r.core, entry.command.resume).None?
    requires r.core.userToSeat[entry.command.resume.userId] == seat && f in Log(Step(r, entry).sent, ch)
    ensures f in Log(r.sent, ch) || ResumeSays(r.core, Step(r, entry).core, r.nextEventSeq, entry.command, entry.inputs.now, ch, f)
  {
    var command, now := entry.command, entry.inputs.now;
    var back := r.(core := Rebind(r.core, seat, command.connection));
    var snapshot := SyncPayload(back.core, seat, back.nextEventSeq, Reconnect, now(seat));
    ConnectionSays(Reply(back, command.connection.outboundTx, snapshot), seat, true, now, ch, f);
    SnapshotFrameSays(back.core, seat, back.nextEventSeq, Reconnect, now, command.connection.outboundTx);
  }

  lemma ResumeStepSays(r: Room, entry: Entry, ch: Channel, f: Frame)
    requires Linked(r.core) && entry.command.ResumeSession? && f in Log(Step(r, entry).sent, ch)
    ensures f in Log(r.sent, ch) || ResumeSays(r.core, Step(r, entry).core, r.nextEventSeq, entry.command, entry.inputs.now, ch, f)
  {
    if ResumeRefusal(r.core, entry.command.resume).None? {
      GrantedResumeSays(r, entry, r.core.userToSeat[entry.command.resume.userId], ch, f);
    }
  }

  lemma RejectSays(r: Room, c: ConnectionId, requestId: string, code: RejectCode, expected: nat, window: nat,
                   ch: Channel, f: Frame)
    requires f in Log(Reject(r, c, requestId, code, expected, window).sent, ch) && f !in Log(r.sent, ch)
    ensures SeatForConnection(r.core, c).Some? && Feeds(r.core, ch, SeatForConnection(r.core, c).value)
    ensures f.eventSeq == r.nextEventSeq && RejectionSays(requestId, code, expected, window, f)
  {
  }

  lemma RejectedSays(r: Room, entry: Entry, ch: Channel, f: Frame)
    requires entry.command.PlayerAction? && f in Log(Step(r, entry).sent, ch) && f !in Log(r.sent, ch)
    requires !Screen(r.core, entry.command.connectionId, entry.command.request).Toggle?
    ensures ActionSays(r.core, Step(r, entry).core, r.nextEventSeq, entry.command, entry.inputs, ch, f)
  {
    var c, request := entry.command.connectionId, entry.command.request;
    var code := ActionCode(r, Screen(r.core, c, request), request, entry.inputs.answer);
    RejectSays(r, c, entry.command.requestId, code, request.expectedEventSeq, request.actionWindowId, ch, f);
    Asking.CodeTells(r, c, request, entry.inputs.answer);
  }

  lemma ToggledSays(r: Room, entry: Entry, seat: Seat, enabled: bool, ch: Channel, f: Frame)
    requires entry.command.PlayerAction? && seat in r.core.playersBySeat
    requires Screen(r.core, entry.command.connectionId, entry.command.request) == Toggle(seat, enabled)
    requires f in Log(BroadcastSync(r.(core := SetAutoPlay(r.core, seat, enabled)), ServerResync, entry.inputs.now).sent, ch)
    ensures f in Log(r.sent, ch)
         || ActionSays(r.core, SetAutoPlay(r.core, seat, enabled), r.nextEventSeq, entry.command, entry.inputs, ch, f)
  {
    SyncSays(r.(core := SetAutoPlay(r.core, seat, enabled)), ServerResync, entry.inputs.now, ch, f);
  }

  lemma ActionStepSays(r: Room, entry: Entry, ch: Channel, f: Frame)
    requires Linked(r.core) && entry.command.PlayerAction? && f in Log(Step(r, entry).sent, ch)
    ensures f in Log(r.sent, ch) || ActionSays(r.core, Step(r, entry).core, r.nextEventSeq, entry.command, entry.inputs, ch, f)
  {
    var screening := Screen(r.core, entry.command.connectionId, entry.command.request);
    if !screening.Toggle? {
      if f !in Log(r.sent, ch) {
        RejectedSays(r, entry, ch, f);
      }
    } else if screening.seat in r.core.playersBySeat {
      ToggledSays(r, entry, screening.seat, screening.enabled, ch, f);
    }
  }

  lemma DisconnectStepSays(r: Room, entry: Entry, ch: Channel, f: Frame)
    requires Linked(r.core) && entry.command.Disconnect? && f in Log(Step(r, entry).sent, ch)
    ensures f in Log(r.sent, ch) || DisconnectSays(r.core, Step(r, entry).core, r.nextEventSeq, entry.command, entry.inputs.now, ch, f)
  {
    var c, now := entry.command.connectionId, entry.inputs.now;
    if c in r.core.connectionToUser {
      var seat := r.core.userToSeat[r.core.connectionToUser[c]];
      var gone := r.(core := Unseat(Forget(r.core, c), seat));
      BothSay(gone, seat, false, now, ch, f);
    }
  }

  /** Every frame that a command adds to a channel says what the command has the room say. */
  lemma StepSays(r: Room, entry: Entry, ch: Channel, f: Frame)
    requires Linked(r.core) && f in Log(Step(r, entry).sent, ch)
    ensures f in Log(r.sent, ch) || Says(r.core, Step(r, entry).core, r.nextEventSeq, entry, ch, f)
  {
    match entry.command {
      case Join(_, _, _) => JoinStepSays(r, entry, ch, f);
      case Ready(_, _, _) => ReadyStepSays(r, entry, ch, f);
      case ResumeSession(_, _, _) => ResumeStepSays(r, entry, ch, f);
      case PlayerAction(_, _, _) => ActionStepSays(r, entry, ch, f);
      case Disconnect(_) => DisconnectStepSays(r, entry, ch, f);
    }
  }

  // ---------- how many frames ----------

  /** Every listening slot on the channel gets one frame of each broadcast. */
  function Heard(next: Core, ch: Channel): nat {
    Numbering.Holders(next.playersBySeat, ch, 4)
  }

  /** The request is granted by a slot of the user that expects its token. */
  predicate TokenFits(core: Core, resume: ResumeRequest) {
    && resume.userId in core.userToSeat && core.userToSeat[resume.userId] in core.playersBySeat
    && core.playersBySeat[core.userToSeat[resume.userId]].resumeToken == resume.resumeToken
  }

  /** How many frames the room sends along the channel for the command. */
  function FrameCount(core: Core, next: Core, command: Command, ch: Channel): nat {
    match command
    case Join(_, connection, join) =>
      (if ch == connection.outboundTx then 1 else 0)
      + (if join.userId in core.userToSeat || Full(core.playersBySeat) then 0 else 2 * Heard(next, ch))
    case Ready(_, c, _) => if c in core.connectionToUser then Heard(next, ch) else 0
    case ResumeSession(_, connection, resume) =>
      (if ch == connection.outboundTx then 1 else 0) + (if TokenFits(core, resume) then Heard(next, ch) else 0)
    case PlayerAction(_, c, request) =>
      if c !in core.connectionToUser || core.connectionToUser[c] !in core.userToSeat then 0
      else if Asking.MatchingToggle(core, request) then Heard(next, ch)
      else if Feeds(core, ch, core.userToSeat[core.connectionToUser[c]]) then 1 else 0
    case Disconnect(c) => if c in core.connectionToUser then 2 * Heard(next, ch) else 0
  }

  lemma SyncCounts(r: Room, reason: SyncReason, now: Seat -> nat, ch: Channel)
    ensures |Log(BroadcastSync(r, reason, now).sent, ch)| == |Log(r.sent, ch)| + Heard(r.core, ch)
  {
    Numbering.SyncSeatsGrow(r.core, r.sent, 4, r.nextEventSeq, reason, now, ch);
  }

  lemma ConnectionCounts(r: Room, seat: Seat, connected: bool, now: Seat -> nat, ch: Channel)
    requires seat in r.core.playersBySeat
    ensures |Log(BroadcastConnection(r, seat, connected, now).sent, ch)| == |Log(r.sent, ch)| + Heard(r.core, ch)
  {
    Numbering.NotifySeatsGrow(r.core.playersBySeat, r.sent, 4,
                              Frame(r.nextEventSeq, ConnectionPayload(r.core, seat, connected, now)), ch);
  }

  lemma BothCount(r: Room, seat: Seat, connected: bool, now: Seat -> nat, ch: Channel)
    requires seat in r.core.playersBySeat
    ensures |Log(BroadcastConnection(BroadcastSync(r, ServerResync, now), seat, connected, now).sent, ch)|
         == |Log(r.sent, ch)| + 2 * Heard(r.core, ch)
  {
    SyncCounts(r, ServerResync, now, ch);
    ConnectionCounts(BroadcastSync(r, ServerResync, now), seat, connected, now, ch);
  }

  lemma JoinCounts(r: Room, entry: Entry, ch: Channel)
    requires entry.command.Join?
    ensures |Log(Step(r, entry).sent, ch)| == |Log(r.sent, ch)| + FrameCount(r.core, Step(r, entry).core, entry.command, ch)
  {
    var command, open := entry.command, NextOpenSeat(r.core.playersBySeat);
    if command.join.userId !in r.core.userToSeat && open.Some? {
      var joined := r.(core := Enroll(r.core, command.connection, command.join, open.value));
      var told := Reply(joined, command.connection.outboundTx,
                        JoinReply(joined, command.requestId, command.connection, NoReject, open.value,
                                  ResumeToken(r.core.roomId, command.join.userId)));
      BothCount(told, open.value, true, entry.inputs.now, ch);
    }
  }

  lemma GrantedResumeCounts(r: Room, entry: Entry, seat: Seat, ch: Channel)
    requires entry.command.ResumeSession? && ResumeRefusal(r.core, entry.command.resume).None?
    requires r.core.userToSeat[entry.command.resume.userId] == seat
    ensures |Log(Step(r, entry).sent, ch)|
         == |Log(r.sent, ch)| + (if ch == entry.command.connection.outboundTx then 1 else 0) + Heard(Step(r, entry).core, ch)
  {
    var command, now := entry.command, entry.inputs.now;
    var back := r.(core := Rebind(r.core, seat, command.connection));
    var snapshot := SyncPayload(back.core, seat, back.nextEventSeq, Reconnect, now(seat));
    ConnectionCounts(Reply(back, command.connection.outboundTx, snapshot), seat, true, now, ch);
  }

  lemma ResumeCounts(r: Room, entry: Entry, ch: Channel)
    requires Linked(r.core) && entry.command.ResumeSession?
    ensures |Log(Step(r, entry).sent, ch)| == |Log(r.sent, ch)| + FrameCount(r.core, Step(r, entry).core, entry.command, ch)
  {
    if TokenFits(r.core, entry.command.resume) {
      GrantedResumeCounts(r, entry, r.core.userToSeat[entry.command.resume.userId], ch);
    }
  }

  lemma RejectCounts(r: Room, c: ConnectionId, requestId: string, code: RejectCode, expected: nat, window: nat, ch: Channel)
    ensures |Log(Reject(r, c, requestId, code, expected, window).sent, ch)|
         == |Log(r.sent, ch)| + if ChannelFor(r.core, c) == Some(ch) then 1 else 0
  {
  }

  lemma RejectedCounts(r: Room, entry: Entry, ch: Channel)
    requires Linked(r.core) && entry.command.PlayerAction?
    requires !Screen(r.core, entry.command.connectionId, entry.command.request).Toggle?
    ensures |Log(Step(r, entry).sent, ch)| == |Log(r.sent, ch)| + FrameCount(r.core, Step(r, entry).core, entry.command, ch)
  {
    var c, request := entry.command.connectionId, entry.command.request;
    RejectCounts(r, c, entry.command.requestId, ActionCode(r, Screen(r.core, c, request), request, entry.inputs.answer),
                 request.expectedEventSeq, request.actionWindowId, ch);
  }

  lemma ToggledCounts(r: Room, entry: Entry, ch: Channel)
    requires Linked(r.core) && entry.command.PlayerAction? && entry.command.connectionId in r.core.connectionToUser
    requires Asking.MatchingToggle(r.core, entry.command.request)
    ensures |Log(Step(r, entry).sent, ch)| == |Log(r.sent, ch)| + Heard(Step(r, entry).core, ch)
  {
    var c, request := entry.command.connectionId, entry.command.request;
    var seat := r.core.userToSeat[r.core.connectionToUser[c]];
    PlayerActions.ToggleStep(r, entry.command.requestId, c, request, entry.inputs);
    SyncCounts(r.(core := SetAutoPlay(r.core, seat, request.action.value.enabled)), ServerResync, entry.inputs.now, ch);
  }

  lemma ActionCounts(r: Room, entry: Entry, ch: Channel)
    requires Linked(r.core) && entry.command.PlayerAction?
    ensures |Log(Step(r, entry).sent, ch)| == |Log(r.sent, ch)| + FrameCount(r.core, Step(r, entry).core, entry.command, ch)
  {
    if entry.command.connectionId in r.core.connectionToUser && Asking.MatchingToggle(r.core, entry.command.request) {
      ToggledCounts(r, entry, ch);
    } else {
      RejectedCounts(r, entry, ch);
    }
  }

  lemma ReadyCounts(r: Room, entry: Entry, ch: Channel)
    requires Linked(r.core) && entry.command.Ready?
    ensures |Log(Step(r, entry).sent, ch)| == |Log(r.sent, ch)| + FrameCount(r.core, Step(r, entry).core, entry.command, ch)
  {
    var c := entry.command.connectionId;
    if c in r.core.connectionToUser {
      var core := MarkReady(r.core, r.core.userToSeat[r.core.connectionToUser[c]], entry.command.ready);
      SyncCounts(r.(core := core), if AllReady(core.playersBySeat) then RoundStart else ServerResync, entry.inputs.now, ch);
    }
  }

  lemma DisconnectCounts(r: Room, entry: Entry, ch: Channel)
    requires Linked(r.core) && entry.command.Disconnect?
    ensures |Log(Step(r, entry).sent, ch)| == |Log(r.sent, ch)| + FrameCount(r.core, Step(r, entry).core, entry.command, ch)
  {
    var c := entry.command.connectionId;
    if c in r.core.connectionToUser {
      var seat := r.core.userToSeat[r.core.connectionToUser[c]];
      BothCount(r.(core := Unseat(Forget(r.core, c), seat)), seat, false, entry.inputs.now, ch);
    }
  }

  /** Together with what each frame says: a command adds exactly these many frames to a channel, after those it holds. */
  lemma StepCounts(r: Room, entry: Entry, ch: Channel)
    requires Linked(r.core)
    ensures |Log(Step(r, entry).sent, ch)| == |Log(r.sent, ch)| + FrameCount(r.core, Step(r, entry).core, entry.command, ch)
  {
    match entry.command {
      case Join(_, _, _) => JoinCounts(r, entry, ch);
      case Ready(_, _, _) => ReadyCounts(r, entry, ch);
      case ResumeSession(_, _, _) => ResumeCounts(r, entry, ch);
      case PlayerAction(_, _, _) => ActionCounts(r, entry, ch);
      case Disconnect(_) => DisconnectCounts(r, entry, ch);
    }
  }

  // ---------- whole runs ----------

  /** The k-th command of the run, where it was handled, had the room say the frame. */
  ghost predicate SaidAt(roomId: RoomId, script: seq<Entry>, k: nat, ch: Channel, f: Frame) {
    && k < |script|
    && Says(Run(roomId, script[..k]).core, Run(roomId, script[..k + 1]).core, Run(roomId, script[..k]).nextEventSeq,
            script[k], ch, f)
  }

  lemma SaidLater(roomId: RoomId, script: seq<Entry>, entry: Entry, k: nat, ch: Channel, f: Frame)
    requires SaidAt(roomId, script, k, ch, f)
    ensures SaidAt(roomId, script + [entry], k, ch, f)
  {
    var now := script + [entry];
    assert now[..k] == script[..k] && now[..k + 1] == script[..k + 1] && now[k] == script[k];
  }

  lemma SaidNow(roomId: RoomId, script: seq<Entry>, entry: Entry, ch: Channel, f: Frame)
    requires Says(Run(roomId, script).core, Run(roomId, script + [entry]).core, Run(roomId, script).nextEventSeq,
                  entry, ch, f)
    ensures SaidAt(roomId, script + [entry], |script|, ch, f)
  {
    var now := script + [entry];
    assert now[..|script|] == script && now[..|script| + 1] == now && now[|script|] == entry;
  }

  lemma FrameOfStep(roomId: RoomId, before: seq<Entry>, entry: Entry, ch: Channel, f: Frame)
    requires f in Log(Run(roomId, before + [entry]).sent, ch)
    ensures f in Log(Run(roomId, before).sent, ch) || SaidAt(roomId, before + [entry], |before|, ch, f)
  {
    RunLinked(roomId, before);
    RunOneMore(roomId, before, entry);
    StepSays(Run(roomId, before), entry, ch, f);
    if f !in Log(Run(roomId, before).sent, ch) {
      SaidNow(roomId, before, entry, ch, f);
    }
  }

  /** Every frame on every channel of every run says what some command of the run had the room say. */
  lemma {:induction false} EveryFrameSays(roomId: RoomId, script: seq<Entry>, ch: Channel, f: Frame)
    requires f in Log(Run(roomId, script).sent, ch)
    ensures exists k: nat :: SaidAt(roomId, script, k, ch, f)
  {
    assert script != [];
    var before, entry := script[..|script| - 1], script[|script| - 1];
    assert before + [entry] == script;
    FrameOfStep(roomId, before, entry, ch, f);
    if f in Log(Run(roomId, before).sent, ch) {
      EveryFrameSays(roomId, before, ch, f);
      var k: nat :| SaidAt(roomId, before, k, ch, f);
      SaidLater(roomId, before, entry, k, ch, f);
    }
  }
}
