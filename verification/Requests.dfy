// How joins, ready requests and resumes are answered, that the resume token a
// join hands out works ever after, and whom a snapshot is addressed to
// (src/room.rs:403-598, 1039-1064, 1147-1204).
module Requests {
  import opened Wrappers
  import opened Protocol
  import opened RoomSpec
  import opened RoomCore
  import opened Connections
  import opened Numbering
  import opened Replica
  import opened Seating

  // ---------- logs ----------

  /** Nothing that was sent is taken back. */
  ghost predicate Prefix(before: seq<Frame>, after: seq<Frame>) {
    |before| <= |after| && after[..|before|] == before
  }

  lemma SyncKeeps(r: Room, reason: SyncReason, now: Seat -> nat, ch: Channel)
    ensures Prefix(Log(r.sent, ch), Log(BroadcastSync(r, reason, now).sent, ch))
  {
    SyncSeatsGrow(r.core, r.sent, 4, r.nextEventSeq, reason, now, ch);
  }

  lemma ConnectionKeeps(r: Room, seat: Seat, connected: bool, now: Seat -> nat, ch: Channel)
    ensures Prefix(Log(r.sent, ch), Log(BroadcastConnection(r, seat, connected, now).sent, ch))
  {
    if seat in r.core.playersBySeat {
      NotifySeatsGrow(r.core.playersBySeat, r.sent, 4,
                      Frame(r.nextEventSeq, ConnectionPayload(r.core, seat, connected, now)), ch);
    }
  }

  lemma PrefixAt(a: seq<Frame>, b: seq<Frame>, frame: Frame)
    requires Prefix(a + [frame], b)
    ensures |a| < |b| && b[|a|] == frame && Prefix(a, b)
  {
    assert b[..|a| + 1][|a|] == frame;
    assert b[..|a| + 1][..|a|] == b[..|a|];
  }

  // ---------- joins ----------

  /** The first frame a command adds to a channel, after the n it holds. */
  function Answer(next: Room, ch: Channel, n: nat): Frame
    requires n < |Log(next.sent, ch)|
  {
    Log(next.sent, ch)[n]
  }

  /** A join that is refused is one answer to the asker, naming the seat already held if there is one. */
  lemma JoinRefused(r: Room, entry: Entry)
    requires entry.command.Join? && !Accepted(r.core, entry.command)
    ensures var command := entry.command;
            exists payload: Payload ::
              && Step(r, entry) == Reply(r, command.connection.outboundTx, payload)
              && payload.JoinRoom? && !payload.accepted && payload.requestId == command.requestId
              && payload.resumeToken == ""
              && (if command.join.userId in r.core.userToSeat
                  then payload.rejectCode == AlreadyJoined && payload.seat == r.core.userToSeat[command.join.userId]
                  else payload.rejectCode == SeatUnavailable && payload.seat == NoSeat)
  {
    var command := entry.command;
    var known := command.join.userId in r.core.userToSeat;
    var payload :=
      JoinReply(r, command.requestId, command.connection, if known then AlreadyJoined else SeatUnavailable,
                if known then r.core.userToSeat[command.join.userId] else NoSeat, "");
    assert Step(r, entry) == Reply(r, command.connection.outboundTx, payload);
  }

  predicate Full(players: map<Seat, PlayerSlot>) {
    East in players && South in players && West in players && North in players
  }

  /** Nobody has the seat, and somebody has each seat before it. */
  predicate FirstOpen(players: map<Seat, PlayerSlot>, seat: Seat) {
    && seat != NoSeat && seat !in players
    && (seat != East ==> East in players)
    && (seat != East && seat != South ==> South in players)
    && (seat == North ==> West in players)
  }

  /** All that one granted join does to a room's core. */
  ghost predicate OnlySeats(core: Core, next: Core, seat: Seat, connection: ConnectionHandle, join: JoinRequest) {
    && next == core.(playersBySeat := next.playersBySeat, userToSeat := next.userToSeat,
                     connectionToUser := next.connectionToUser)
    && FirstOpen(core.playersBySeat, seat) && next.playersBySeat.Keys == core.playersBySeat.Keys + {seat}
    && (forall s | s in core.playersBySeat :: next.playersBySeat[s] == core.playersBySeat[s])
    && next.playersBySeat[seat]
       == PlayerSlot(join.userId, join.displayName, seat, Joined, 25_000, true, false,
                     Some(connection.connectionId), Some(connection.outboundTx),
                     "resume-" + core.roomId + "-" + join.userId)
    && next.userToSeat == core.userToSeat[join.userId := seat]
    && next.connectionToUser == core.connectionToUser[connection.connectionId := join.userId]
  }

  lemma EnrollOnly(core: Core, connection: ConnectionHandle, join: JoinRequest, seat: Seat)
    requires NextOpenSeat(core.playersBySeat) == Some(seat)
    ensures OnlySeats(core, Enroll(core, connection, join, seat), seat, connection, join)
  {
  }

  /**
   * A granted join seats its user in the first open seat, with the name given and
   * the starting score, and changes nobody else; and first of all the asker's own
   * channel is told that seat, and the token that the slot expects.
   */
  lemma JoinGranted(r: Room, entry: Entry)
    requires entry.command.Join? && Accepted(r.core, entry.command)
    ensures entry.command.join.userId in Step(r, entry).core.userToSeat
    ensures OnlySeats(r.core, Step(r, entry).core, Step(r, entry).core.userToSeat[entry.command.join.userId],
                      entry.command.connection, entry.command.join)
    ensures var ch, next := entry.command.connection.outboundTx, Step(r, entry);
            var n := |Log(r.sent, ch)|;
            && n < |Log(next.sent, ch)|
            && Answer(next, ch, n).eventSeq == r.nextEventSeq
            && var payload := Answer(next, ch, n).payload;
               && payload.JoinRoom? && payload.accepted && payload.requestId == entry.command.requestId
               && payload.connectionId == entry.command.connection.connectionId
               && entry.command.join.userId in next.core.userToSeat
               && payload.seat == next.core.userToSeat[entry.command.join.userId]
               && payload.seat in next.core.playersBySeat
               && payload.resumeToken == next.core.playersBySeat[payload.seat].resumeToken
  {
    var command, now := entry.command, entry.inputs.now;
    var ch, seat := command.connection.outboundTx, NextOpenSeat(r.core.playersBySeat).value;
    var joined := r.(core := Enroll(r.core, command.connection, command.join, seat));
    var payload := JoinReply(joined, command.requestId, command.connection, NoReject, seat,
                             ResumeToken(r.core.roomId, command.join.userId));
    var told := Reply(joined, ch, payload);
    var synced := BroadcastSync(told, ServerResync, now);
    EnrollOnly(r.core, command.connection, command.join, seat);
    SyncKeeps(told, ServerResync, now, ch);
    ConnectionKeeps(synced, seat, true, now, ch);
    PrefixAt(Log(r.sent, ch), Log(synced.sent, ch), Frame(r.nextEventSeq, payload));
    assert Step(r, entry) == BroadcastConnection(synced, seat, true, now);
    assert Log(synced.sent, ch)[|Log(r.sent, ch)|] == Log(Step(r, entry).sent, ch)[..|Log(synced.sent, ch)|][|Log(r.sent, ch)|];
  }

  // ---------- resume tokens ----------

  /** Every slot expects the token of its own room and user. */
  ghost predicate TokensIssued(core: Core) {
    forall s | s in core.playersBySeat ::
      core.playersBySeat[s].resumeToken == ResumeToken(core.roomId, core.playersBySeat[s].userId)
  }

  lemma NextTokensIssued(core: Core, command: Command)
    requires TokensIssued(core)
    ensures TokensIssued(NextCore(core, command)) && NextCore(core, command).roomId == core.roomId
  {
  }

  lemma {:induction false} TokensAlwaysIssued(roomId: RoomId, commands: seq<Command>)
    ensures TokensIssued(CoreAfter(roomId, commands)) && CoreAfter(roomId, commands).roomId == roomId
  {
    if commands != [] {
      var last := |commands| - 1;
      TokensAlwaysIssued(roomId, commands[..last]);
      NextTokensIssued(CoreAfter(roomId, commands[..last]), commands[last]);
    }
  }

  /** Two users of one room never expect the same token. */
  lemma TokensDiffer(roomId: RoomId, commands: seq<Command>, s: Seat, t: Seat)
    requires var players := CoreAfter(roomId, commands).playersBySeat;
             s in players && t in players && players[s].resumeToken == players[t].resumeToken
    ensures s == t
  {
    var players := CoreAfter(roomId, commands).playersBySeat;
    TokensAlwaysIssued(roomId, commands);
    CoreAlwaysSound(roomId, commands);
    var n := |"resume-" + roomId + "-"|;
    assert ResumeToken(roomId, players[s].userId)[n..] == players[s].userId;
    assert ResumeToken(roomId, players[t].userId)[n..] == players[t].userId;
  }

  /** The user is one of the first four of a list. */
  ghost predicate Early(users: seq<UserId>, user: UserId) {
    exists k: nat :: k < 4 && k < |users| && users[k] == user
  }

  lemma EarlyKnown(core: Core, users: seq<UserId>, user: UserId)
    requires SeatedInOrder(core, users)
    ensures user in core.userToSeat <==> Early(users, user)
  {
    if k: nat :| k < 4 && k < |users| && users[k] == user {
      assert SeatAt(k) in core.playersBySeat;
    }
  }

  /** Only the first four joiners are ever known to a room. */
  lemma KnownUsers(roomId: RoomId, commands: seq<Command>, user: UserId)
    ensures user in CoreAfter(roomId, commands).userToSeat <==> Early(Joiners(commands), user)
  {
    SeatedByHistory(roomId, commands);
    EarlyKnown(CoreAfter(roomId, commands), Joiners(commands), user);
  }

  /**
   * A resume is granted if and only if the user is one of the first four that
   * joined and the token is the one made of room and user; a stranger is told so,
   * a wrong token fails, and the room never finds its own maps inconsistent.
   */
  lemma ResumeGrantedIff(roomId: RoomId, commands: seq<Command>, resume: ResumeRequest)
    ensures var refusal := ResumeRefusal(CoreAfter(roomId, commands), resume);
            var known := Early(Joiners(commands), resume.userId);
            && (refusal.None? <==> known && resume.resumeToken == "resume-" + roomId + "-" + resume.userId)
            && (refusal == Some(NotInRoom) <==> !known)
            && (refusal == Some(AuthFailed) <==> known && resume.resumeToken != "resume-" + roomId + "-" + resume.userId)
  {
    KnownUsers(roomId, commands, resume.userId);
    CoreAlwaysSound(roomId, commands);
    TokensAlwaysIssued(roomId, commands);
  }

  /**
   * The token a join hands out works ever after: whatever happens in between, a
   * resume by the same user with the token read off the answer is granted.
   */
  lemma HandedTokenResumes(roomId: RoomId, before: seq<Entry>, join: Entry, after: seq<Entry>, resume: ResumeRequest)
    requires join.command.Join? && Accepted(Run(roomId, before).core, join.command)
    requires var r, ch := Run(roomId, before), join.command.connection.outboundTx;
             && resume.userId == join.command.join.userId
             && |Log(r.sent, ch)| < |Log(Step(r, join).sent, ch)|
             && Answer(Step(r, join), ch, |Log(r.sent, ch)|).payload.JoinRoom?
             && resume.resumeToken == Answer(Step(r, join), ch, |Log(r.sent, ch)|).payload.resumeToken
    ensures ResumeRefusal(Run(roomId, before + [join] + after).core, resume).None?
  {
    var r, user := Run(roomId, before), resume.userId;
    JoinGranted(r, join);
    RunCore(roomId, before);
    StepCore(r, join);
    CoreAfterOne(roomId, Commands(before), join.command);
    var joined := Commands(before) + [join.command];
    TokensAlwaysIssued(roomId, joined);
    CoreAlwaysSound(roomId, joined);
    SeatsNeverChange(roomId, joined, Commands(after));
    CommandsOfParts(before, join, after);
    RunCore(roomId, before + [join] + after);
    CoreAlwaysSound(roomId, joined + Commands(after));
    TokensAlwaysIssued(roomId, joined + Commands(after));
  }

  lemma CommandsOfParts(before: seq<Entry>, entry: Entry, after: seq<Entry>)
    ensures Commands(before + [entry] + after) == Commands(before) + [entry.command] + Commands(after)
  {
  }

  // ---------- ready ----------

  /** All that one ready request does to a room's core. */
  ghost predicate OnlyReadies(core: Core, next: Core, seat: Seat, ready: bool) {
    && next == core.(playersBySeat := next.playersBySeat, phase := next.phase)
    && seat in core.playersBySeat && next.playersBySeat.Keys == core.playersBySeat.Keys
    && (next.playersBySeat[seat].status == PlayerStatus.Ready <==> ready)
    && (next.playersBySeat[seat].status == Joined <==> !ready)
    && (forall s | s in core.playersBySeat ::
          next.playersBySeat[s] == core.playersBySeat[s].(status := next.playersBySeat[s].status))
    && (forall s | s in core.playersBySeat && s != seat :: next.playersBySeat[s] == core.playersBySeat[s])
  }

  lemma MarkReadyOnly(core: Core, seat: Seat, ready: bool)
    requires seat in core.playersBySeat
    ensures OnlyReadies(core, MarkReady(core, seat, ready), seat, ready)
  {
  }

  lemma MarkReadyPhase(core: Core, seat: Seat, ready: bool)
    requires SeatsNamed(core)
    ensures MarkReady(core, seat, ready).phase
         == if FourReady(MarkReady(core, seat, ready).playersBySeat) then Dealing else Lobby
  {
    FourReadyIff(MarkReady(core, seat, ready).playersBySeat);
  }

  lemma ReadyStep(r: Room, entry: Entry, seat: Seat)
    requires entry.command.Ready? && SeatForConnection(r.core, entry.command.connectionId) == Some(seat)
    ensures var core := MarkReady(r.core, seat, entry.command.ready);
            Step(r, entry) == BroadcastSync(r.(core := core), if core.phase == Dealing then RoundStart else ServerResync,
                                            entry.inputs.now)
  {
  }

  /** A log grown by one snapshot for each of its listening slots, each giving the reason. */
  ghost predicate GrownBySnapshots(before: seq<Frame>, after: seq<Frame>, copies: nat, eventSeq: nat, reason: SyncReason) {
    && |after| == |before| + copies && Prefix(before, after)
    && forall i | |before| <= i < |after| ::
         after[i].eventSeq == eventSeq && after[i].payload.SyncState? && after[i].payload.reason == reason
  }

  lemma GrownSnapshots(before: seq<Frame>, after: seq<Frame>, copies: nat, core: Core, eventSeq: nat, reason: SyncReason)
    requires Grown(before, after, copies, eventSeq, SyncNotice(core, eventSeq, reason))
    ensures GrownBySnapshots(before, after, copies, eventSeq, reason)
  {
  }

  /** What a ready request sends, whatever the table is like. */
  lemma ReadySends(r: Room, entry: Entry, seat: Seat, next: Core, reason: SyncReason, ch: Channel)
    requires entry.command.Ready? && SeatForConnection(r.core, entry.command.connectionId) == Some(seat)
    requires next == MarkReady(r.core, seat, entry.command.ready)
    requires reason == if next.phase == Dealing then RoundStart else ServerResync
    ensures Step(r, entry).core == next && Step(r, entry).nextEventSeq == r.nextEventSeq + 1
    ensures GrownBySnapshots(Log(r.sent, ch), Log(Step(r, entry).sent, ch), Holders(next.playersBySeat, ch, 4),
                             r.nextEventSeq, reason)
  {
    ReadyStep(r, entry, seat);
    SyncSeatsGrow(next, r.sent, 4, r.nextEventSeq, reason, entry.inputs.now, ch);
    GrownSnapshots(Log(r.sent, ch), Log(BroadcastSync(r.(core := next), reason, entry.inputs.now).sent, ch),
                   Holders(next.playersBySeat, ch, 4), next, r.nextEventSeq, reason);
  }

  /**
   * From a registered connection a ready request sets the asker's status as asked
   * and no other; and every listening seat gets exactly one snapshot, which
   * announces the start of the round if and only if all four seats are now taken
   * by players who are ready.
   */
  lemma ReadySetsOneStatus(r: Room, entry: Entry, ch: Channel)
    requires Linked(r.core)
    requires entry.command.Ready? && entry.command.connectionId in r.core.connectionToUser
    ensures var next := Step(r, entry);
            && OnlyReadies(r.core, next.core, r.core.userToSeat[r.core.connectionToUser[entry.command.connectionId]],
                           entry.command.ready)
            && next.core.phase == (if FourReady(next.core.playersBySeat) then Dealing else Lobby)
            && next.nextEventSeq == r.nextEventSeq + 1
            && GrownBySnapshots(Log(r.sent, ch), Log(next.sent, ch), Holders(next.core.playersBySeat, ch, 4), r.nextEventSeq,
                                if FourReady(next.core.playersBySeat) then RoundStart else ServerResync)
  {
    var seat := r.core.userToSeat[r.core.connectionToUser[entry.command.connectionId]];
    var core := MarkReady(r.core, seat, entry.command.ready);
    MarkReadyOnly(r.core, seat, entry.command.ready);
    MarkReadyPhase(r.core, seat, entry.command.ready);
    ReadySends(r, entry, seat, core, if core.phase == Dealing then RoundStart else ServerResync, ch);
  }

  // ---------- resumes ----------

  /** All that one granted resume does to a room's core. */
  ghost predicate OnlyRebinds(core: Core, next: Core, seat: Seat, connection: ConnectionHandle) {
    && next == core.(playersBySeat := next.playersBySeat, connectionToUser := next.connectionToUser)
    && seat in core.playersBySeat && next.playersBySeat.Keys == core.playersBySeat.Keys
    && next.playersBySeat[seat] == core.playersBySeat[seat].(
         connected := true, connectionId := Some(connection.connectionId), outboundTx := Some(connection.outboundTx))
    && (forall s | s in core.playersBySeat && s != seat :: next.playersBySeat[s] == core.playersBySeat[s])
    && (forall c :: c in next.connectionToUser && next.connectionToUser[c] == core.playersBySeat[seat].userId
                    <==> c == connection.connectionId)
    && (forall c | c != connection.connectionId && core.playersBySeat[seat].connectionId != Some(c) ::
          (c in next.connectionToUser <==> c in core.connectionToUser)
          && (c in core.connectionToUser ==> next.connectionToUser[c] == core.connectionToUser[c]))
  }

  lemma RebindOnly(core: Core, seat: Seat, connection: ConnectionHandle)
    requires Linked(core) && seat in core.playersBySeat
    ensures OnlyRebinds(core, Rebind(core, seat, connection), seat, connection)
  {
    var next := Rebind(core, seat, connection);
    forall c
      ensures c in next.connectionToUser && next.connectionToUser[c] == core.playersBySeat[seat].userId
         <==> c == connection.connectionId
    {
      if c in core.connectionToUser && core.connectionToUser[c] == core.playersBySeat[seat].userId {
        assert core.playersBySeat[seat].connectionId == Some(c);
      }
    }
  }

  /**
   * A granted resume brings a player back with status, score and auto-play as
   * they were, reached by the new connection alone; and the new connection is
   * first of all sent a snapshot of that table, addressed to the player's seat.
   */
  lemma ResumeRestores(r: Room, entry: Entry)
    requires Linked(r.core) && entry.command.ResumeSession? && Accepted(r.core, entry.command)
    ensures var ch, next := entry.command.connection.outboundTx, Step(r, entry);
            var seat, n := r.core.userToSeat[entry.command.resume.userId], |Log(r.sent, ch)|;
            && OnlyRebinds(r.core, next.core, seat, entry.command.connection)
            && n < |Log(next.sent, ch)|
            && Answer(next, ch, n).eventSeq == r.nextEventSeq
            && Answer(next, ch, n).payload.SyncState?
            && Answer(next, ch, n).payload.reason == Reconnect
            && Answer(next, ch, n).payload.snapshot == Snapshot(seat, r.nextEventSeq, PublicState(next.core))
  {
    var command, now := entry.command, entry.inputs.now;
    var ch, seat := command.connection.outboundTx, r.core.userToSeat[command.resume.userId];
    var back := r.(core := Rebind(r.core, seat, command.connection));
    var payload := SyncPayload(back.core, seat, back.nextEventSeq, Reconnect, now(seat));
    var synced := Reply(back, ch, payload);
    RebindOnly(r.core, seat, command.connection);
    ConnectionKeeps(synced, seat, true, now, ch);
    PrefixAt(Log(r.sent, ch), Log(BroadcastConnection(synced, seat, true, now).sent, ch), Frame(r.nextEventSeq, payload));
  }

  // ---------- disconnects ----------

  /** All that one disconnect does to a room's core. */
  ghost predicate OnlyUnwires(core: Core, next: Core, seat: Seat, c: ConnectionId) {
    && next == core.(playersBySeat := next.playersBySeat, connectionToUser := next.connectionToUser)
    && seat in core.playersBySeat && next.playersBySeat.Keys == core.playersBySeat.Keys
    && next.playersBySeat[seat] == core.playersBySeat[seat].(connected := false, connectionId := None, outboundTx := None)
    && (forall s | s in core.playersBySeat && s != seat :: next.playersBySeat[s] == core.playersBySeat[s])
    && (forall d :: d in next.connectionToUser <==> d in core.connectionToUser && d != c)
    && (forall d | d in next.connectionToUser :: next.connectionToUser[d] == core.connectionToUser[d])
  }

  lemma UnseatOnly(core: Core, seat: Seat, c: ConnectionId)
    requires seat in core.playersBySeat
    ensures OnlyUnwires(core, Unseat(Forget(core, c), seat), seat, c)
  {
  }

  /**
   * A registered connection's disconnect unregisters it and takes the wires off
   * its player's slot, whose seat, name, status and score stay; nothing else
   * changes.
   */
  lemma DisconnectUnwires(r: Room, entry: Entry)
    requires Linked(r.core)
    requires entry.command.Disconnect? && entry.command.connectionId in r.core.connectionToUser
    ensures OnlyUnwires(r.core, Step(r, entry).core, r.core.userToSeat[r.core.connectionToUser[entry.command.connectionId]],
                        entry.command.connectionId)
  {
    StepCore(r, entry);
    UnseatOnly(r.core, r.core.userToSeat[r.core.connectionToUser[entry.command.connectionId]], entry.command.connectionId);
  }

  // ---------- whom a snapshot is addressed to ----------

  lemma {:induction false} SyncSeatsAddress(core: Core, out: Outbox, k: nat, eventSeq: nat, reason: SyncReason,
                                            now: Seat -> nat, ch: Channel, f: Frame)
    requires k <= 4 && f in Log(SyncSeats(core, out, k, eventSeq, reason, now), ch)
    ensures f in Log(out, ch) || (f.payload.SyncState? && Feeds(core, ch, f.payload.snapshot.selfSeat))
  {
    if k != 0 {
      var before := SyncSeats(core, out, k - 1, eventSeq, reason, now);
      if f in Log(before, ch) {
        SyncSeatsAddress(core, out, k - 1, eventSeq, reason, now, ch, f);
      }
    }
  }

  lemma {:induction false} NotifySeatsAddress(players: map<Seat, PlayerSlot>, out: Outbox, k: nat, frame: Frame,
                                              ch: Channel, f: Frame)
    requires k <= 4 && f in Log(NotifySeats(players, out, k, frame), ch)
    ensures f in Log(out, ch) || f == frame
  {
    if k != 0 && f in Log(NotifySeats(players, out, k - 1, frame), ch) {
      NotifySeatsAddress(players, out, k - 1, frame, ch, f);
    }
  }

  lemma BroadcastsAddress(r: Room, seat: Seat, connected: bool, reason: SyncReason, now: Seat -> nat, ch: Channel, f: Frame)
    requires f.payload.SyncState?
    ensures f in Log(BroadcastSync(r, reason, now).sent, ch) ==>
              f in Log(r.sent, ch) || Feeds(r.core, ch, f.payload.snapshot.selfSeat)
    ensures f in Log(BroadcastConnection(r, seat, connected, now).sent, ch) ==> f in Log(r.sent, ch)
  {
    if f in Log(BroadcastSync(r, reason, now).sent, ch) {
      SyncSeatsAddress(r.core, r.sent, 4, r.nextEventSeq, reason, now, ch, f);
    }
    if seat in r.core.playersBySeat && f in Log(BroadcastConnection(r, seat, connected, now).sent, ch) {
      NotifySeatsAddress(r.core.playersBySeat, r.sent, 4,
                         Frame(r.nextEventSeq, ConnectionPayload(r.core, seat, connected, now)), ch, f);
    }
  }

  lemma JoinAddress(r: Room, entry: Entry, ch: Channel, f: Frame)
    requires entry.command.Join? && f in Log(Step(r, entry).sent, ch) && f.payload.SyncState?
    ensures f in Log(r.sent, ch) || Feeds(Step(r, entry).core, ch, f.payload.snapshot.selfSeat)
  {
    var command, now := entry.command, entry.inputs.now;
    if Accepted(r.core, command) {
      var seat := NextOpenSeat(r.core.playersBySeat).value;
      var joined := r.(core := Enroll(r.core, command.connection, command.join, seat));
      var told := Reply(joined, command.connection.outboundTx,
                        JoinReply(joined, command.requestId, command.connection, NoReject, seat,
                                  ResumeToken(r.core.roomId, command.join.userId)));
      BroadcastsAddress(BroadcastSync(told, ServerResync, now), seat, true, ServerResync, now, ch, f);
      BroadcastsAddress(told, seat, true, ServerResync, now, ch, f);
    } else {
      JoinRefused(r, entry);
    }
  }

  lemma ResumeAddress(r: Room, entry: Entry, ch: Channel, f: Frame)
    requires Linked(r.core)
    requires entry.command.ResumeSession? && f in Log(Step(r, entry).sent, ch) && f.payload.SyncState?
    ensures f in Log(r.sent, ch) || Feeds(Step(r, entry).core, ch, f.payload.snapshot.selfSeat)
  {
    var command, now := entry.command, entry.inputs.now;
    if Accepted(r.core, command) {
      var seat := r.core.userToSeat[command.resume.userId];
      var back := r.(core := Rebind(r.core, seat, command.connection));
      var payload := SyncPayload(back.core, seat, back.nextEventSeq, Reconnect, now(seat));
      BroadcastsAddress(Reply(back, command.connection.outboundTx, payload), seat, true, ServerResync, now, ch, f);
    }
  }

  lemma OtherAddress(r: Room, entry: Entry, ch: Channel, f: Frame)
    requires entry.command.Ready? || entry.command.PlayerAction? || entry.command.Disconnect?
    requires f in Log(Step(r, entry).sent, ch) && f.payload.SyncState?
    ensures f in Log(r.sent, ch) || Feeds(Step(r, entry).core, ch, f.payload.snapshot.selfSeat)
  {
    var next := Step(r, entry);
    var announced, base := r.(core := next.core), BroadcastSync(r.(core := next.core), ServerResync, entry.inputs.now);
    BroadcastsAddress(announced, NoSeat, false, ServerResync, entry.inputs.now, ch, f);
    BroadcastsAddress(announced, NoSeat, false, RoundStart, entry.inputs.now, ch, f);
    if entry.command.Disconnect? && entry.command.connectionId in r.core.connectionToUser {
      var user := r.core.connectionToUser[entry.command.connectionId];
      if user in r.core.userToSeat {
        BroadcastsAddress(base, r.core.userToSeat[user], false, ServerResync, entry.inputs.now, ch, f);
      }
    }
  }

  /** A channel was at some time bound to the user. */
  ghost predicate FedFor(commands: seq<Command>, ch: Channel, user: UserId) {
    exists i :: 0 <= i < |commands| && Binds(commands[i])
                && commands[i].connection.outboundTx == ch && BoundUser(commands[i]) == user
  }

  /** Every snapshot on a channel is addressed to the seat of a user whom the channel asked for. */
  ghost predicate Addressed(r: Room, commands: seq<Command>) {
    forall ch, f | f in Log(r.sent, ch) && f.payload.SyncState? ::
      && f.payload.snapshot.selfSeat in r.core.playersBySeat
      && FedFor(commands, ch, r.core.playersBySeat[f.payload.snapshot.selfSeat].userId)
  }

  lemma FedForGrows(commands: seq<Command>, command: Command, ch: Channel, user: UserId)
    requires FedFor(commands, ch, user)
    ensures FedFor(commands + [command], ch, user)
  {
    var i :| 0 <= i < |commands| && Binds(commands[i])
             && commands[i].connection.outboundTx == ch && BoundUser(commands[i]) == user;
    assert (commands + [command])[i] == commands[i];
  }

  lemma FeederAsked(roomId: RoomId, commands: seq<Command>, ch: Channel, seat: Seat)
    requires Feeds(CoreAfter(roomId, commands), ch, seat)
    ensures FedFor(commands, ch, CoreAfter(roomId, commands).playersBySeat[seat].userId)
  {
    CoreAlwaysSound(roomId, commands);
    SlotsTraced(roomId, commands);
    var slot := CoreAfter(roomId, commands).playersBySeat[seat];
    assert BoundBy(commands, ConnectionHandle(slot.connectionId.value, ch), slot.userId);
  }

  lemma StepAddress(r: Room, entry: Entry, ch: Channel, f: Frame)
    requires Linked(r.core) && f in Log(Step(r, entry).sent, ch) && f.payload.SyncState?
    ensures f in Log(r.sent, ch) || Feeds(Step(r, entry).core, ch, f.payload.snapshot.selfSeat)
  {
    if entry.command.Join? {
      JoinAddress(r, entry, ch, f);
    } else if entry.command.ResumeSession? {
      ResumeAddress(r, entry, ch, f);
    } else {
      OtherAddress(r, entry, ch, f);
    }
  }

  lemma SlotsKeepUsers(core: Core, command: Command, seat: Seat)
    requires SeatsNamed(core) && seat in core.playersBySeat
    ensures seat in NextCore(core, command).playersBySeat
    ensures NextCore(core, command).playersBySeat[seat].userId == core.playersBySeat[seat].userId
  {
  }

  lemma StepAddressed(roomId: RoomId, r: Room, commands: seq<Command>, entry: Entry)
    requires r.core == CoreAfter(roomId, commands) && Linked(r.core) && Addressed(r, commands)
    ensures Addressed(Step(r, entry), commands + [entry.command])
  {
    var next, now := Step(r, entry), commands + [entry.command];
    StepCore(r, entry);
    CoreAfterOne(roomId, commands, entry.command);
    forall ch, f | f in Log(next.sent, ch) && f.payload.SyncState?
      ensures f.payload.snapshot.selfSeat in next.core.playersBySeat
      ensures FedFor(now, ch, next.core.playersBySeat[f.payload.snapshot.selfSeat].userId)
    {
      StepAddress(r, entry, ch, f);
      var seat := f.payload.snapshot.selfSeat;
      if f in Log(r.sent, ch) {
        SlotsKeepUsers(r.core, entry.command, seat);
        FedForGrows(commands, entry.command, ch, r.core.playersBySeat[seat].userId);
      } else {
        FeederAsked(roomId, now, ch, seat);
      }
    }
  }

  lemma RunLinked(roomId: RoomId, script: seq<Entry>)
    ensures Run(roomId, script).core == CoreAfter(roomId, Commands(script)) && Linked(CoreAfter(roomId, Commands(script)))
  {
    RunCore(roomId, script);
    CoreAlwaysSound(roomId, Commands(script));
  }

  lemma AddressedAfter(roomId: RoomId, before: seq<Entry>, entry: Entry)
    requires Addressed(Run(roomId, before), Commands(before))
    ensures Addressed(Run(roomId, before + [entry]), Commands(before + [entry]))
  {
    RunLinked(roomId, before);
    StepAddressed(roomId, Run(roomId, before), Commands(before), entry);
    RunOneMore(roomId, before, entry);
    assert Commands(before + [entry]) == Commands(before) + [entry.command];
  }

  /** Over any run, every snapshot is addressed to the seat of a user for whom its channel asked. */
  lemma {:induction false} SnapshotsAddressed(roomId: RoomId, script: seq<Entry>)
    ensures Addressed(Run(roomId, script), Commands(script))
  {
    if script != [] {
      var before, entry := script[..|script| - 1], script[|script| - 1];
      SnapshotsAddressed(roomId, before);
      AddressedAfter(roomId, before, entry);
      assert before + [entry] == script;
    }
  }

  /**
   * If no connection speaks for two users and no channel serves two connections,
   * all snapshots on one channel are addressed to one seat.
   */
  lemma OneAddressee(roomId: RoomId, script: seq<Entry>, ch: Channel, f: Frame, g: Frame)
    requires OneUserPerConnection(Commands(script)) && OwnChannels(Commands(script))
    requires f in Log(Run(roomId, script).sent, ch) && g in Log(Run(roomId, script).sent, ch)
    requires f.payload.SyncState? && g.payload.SyncState?
    ensures f.payload.snapshot.selfSeat == g.payload.snapshot.selfSeat
  {
    SnapshotsAddressed(roomId, script);
    RunLinked(roomId, script);
  }
}
