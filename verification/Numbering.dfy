// Event numbers over whole runs (src/room.rs:777-785, 1039-1145).
module Numbering {
  import opened Wrappers
  import opened Protocol
  import opened RoomSpec
  import opened RoomCore
  import opened Connections

  // ---------- what a broadcast adds to one channel ----------

  /** A payload without what depends on its recipient or on the clock. */
  function Erase(payload: Payload): Payload {
    match payload
    case SyncState(roomId, matchId, roundId, reason, _, snapshot) =>
      SyncState(roomId, matchId, roundId, reason, 0, snapshot.(selfSeat := NoSeat))
    case PlayerConnectionChanged(roomId, matchId, userId, seat, status, connected, _) =>
      PlayerConnectionChanged(roomId, matchId, userId, seat, status, connected, 0)
    case JoinRoom(_, _, _, _, _, _, _, _, _) => payload
    case ActionRejected(_, _, _, _, _) => payload
  }

  function SyncNotice(core: Core, eventSeq: nat, reason: SyncReason): Payload {
    Erase(SyncPayload(core, NoSeat, eventSeq, reason, 0))
  }

  function ConnectionNotice(core: Core, seat: Seat, connected: bool): Payload
    requires seat in core.playersBySeat
  {
    Erase(ConnectionPayload(core, seat, connected, _ => 0))
  }

  /** How many of the first k seats listen on a channel. */
  function Holders(players: map<Seat, PlayerSlot>, ch: Channel, k: nat): nat
    requires k <= 4
  {
    if k == 0 then 0
    else Holders(players, ch, k - 1)
         + if ListensAt(players, SeatAt(k - 1)) && players[SeatAt(k - 1)].outboundTx.value == ch then 1 else 0
  }

  /** A log grown by some copies of one numbered notice. */
  ghost predicate Grown(before: seq<Frame>, after: seq<Frame>, copies: nat, eventSeq: nat, notice: Payload) {
    && |after| == |before| + copies
    && after[..|before|] == before
    && forall i | |before| <= i < |after| :: after[i].eventSeq == eventSeq && Erase(after[i].payload) == notice
  }

  lemma GrownOnce(log: seq<Frame>, middle: seq<Frame>, copies: nat, frame: Frame)
    requires Grown(log, middle, copies, frame.eventSeq, Erase(frame.payload))
    ensures Grown(log, middle + [frame], copies + 1, frame.eventSeq, Erase(frame.payload))
  {
  }

  /** Each listening seat gets exactly one snapshot of a broadcast. */
  lemma {:induction false} SyncSeatsGrow(core: Core, out: Outbox, k: nat, eventSeq: nat, reason: SyncReason,
                                         now: Seat -> nat, ch: Channel)
    requires k <= 4
    ensures Grown(Log(out, ch), Log(SyncSeats(core, out, k, eventSeq, reason, now), ch),
                  Holders(core.playersBySeat, ch, k), eventSeq, SyncNotice(core, eventSeq, reason))
  {
    if k != 0 {
      SyncSeatsGrow(core, out, k - 1, eventSeq, reason, now, ch);
      var seat := SeatAt(k - 1);
      GrownOnce(Log(out, ch), Log(SyncSeats(core, out, k - 1, eventSeq, reason, now), ch),
                Holders(core.playersBySeat, ch, k - 1),
                Frame(eventSeq, SyncPayload(core, seat, eventSeq, reason, now(seat))));
    }
  }

  /** Each listening seat gets exactly one copy of a notice. */
  lemma {:induction false} NotifySeatsGrow(players: map<Seat, PlayerSlot>, out: Outbox, k: nat, frame: Frame, ch: Channel)
    requires k <= 4
    ensures Grown(Log(out, ch), Log(NotifySeats(players, out, k, frame), ch),
                  Holders(players, ch, k), frame.eventSeq, Erase(frame.payload))
  {
    if k != 0 {
      NotifySeatsGrow(players, out, k - 1, frame, ch);
      GrownOnce(Log(out, ch), Log(NotifySeats(players, out, k - 1, frame), ch), Holders(players, ch, k - 1), frame);
    }
  }

  // ---------- the events a command announces ----------

  function ReadyReason(core: Core): SyncReason {
    if AllReady(core.playersBySeat) then RoundStart else ServerResync
  }

  /**
   * The logical events of one command, in order: the first gets the room's next
   * number, the second the one after it, and so on. Everything public in them
   * is read from the core the command leaves behind.
   */
  function Notices(r: Room, entry: Entry): seq<Payload> {
    var n, core := r.nextEventSeq, NextCore(r.core, entry.command);
    match entry.command
    case Join(requestId, connection, join) =>
      if join.userId in r.core.userToSeat then
        [JoinReply(r, requestId, connection, AlreadyJoined, r.core.userToSeat[join.userId], "")]
      else (
        match NextOpenSeat(r.core.playersBySeat)
        case None => [JoinReply(r, requestId, connection, SeatUnavailable, NoSeat, "")]
        case Some(seat) =>
          [JoinReply(r, requestId, connection, NoReject, seat, ResumeToken(r.core.roomId, join.userId)),
           SyncNotice(core, n + 1, ServerResync), ConnectionNotice(core, seat, true)])
    case Ready(_, c, _) =>
      if SeatForConnection(r.core, c).Some? then [SyncNotice(core, n, ReadyReason(core))] else []
    case ResumeSession(requestId, _, resume) => (
      match ResumeRefusal(r.core, resume)
      case Some(code) => [Rejection(r, requestId, code, resume.lastReceivedEventSeq, 0)]
      case None => [SyncNotice(core, n, Reconnect), ConnectionNotice(core, r.core.userToSeat[resume.userId], true)])
    case PlayerAction(requestId, c, request) =>
      var screening := Screen(r.core, c, request);
      if screening.Toggle? then
        if screening.seat in r.core.playersBySeat then [SyncNotice(core, n, ServerResync)] else []
      else if ChannelFor(r.core, c).None? then []
      else [Rejection(r, requestId, ActionCode(r, screening, request, entry.inputs.answer),
                      request.expectedEventSeq, request.actionWindowId)]
    case Disconnect(c) =>
      var seat := SeatForConnection(r.core, c);
      if seat.Some? && seat.value in r.core.playersBySeat
      then [SyncNotice(core, n, ServerResync), ConnectionNotice(core, seat.value, false)]
      else []
  }

  function History(roomId: RoomId, script: seq<Entry>): seq<Payload> {
    if script == [] then []
    else
      var last := |script| - 1;
      History(roomId, script[..last]) + Notices(Run(roomId, script[..last]), script[last])
  }

  /** The numbers handed out are 1 to |events|, and every frame tells the event of its number. */
  ghost predicate Numbered(r: Room, events: seq<Payload>) {
    && r.nextEventSeq == |events| + 1
    && forall ch, i | 0 <= i < |Log(r.sent, ch)| :: Tells(Log(r.sent, ch)[i], events)
  }

  ghost predicate Tells(frame: Frame, events: seq<Payload>) {
    1 <= frame.eventSeq <= |events| && Erase(frame.payload) == events[frame.eventSeq - 1]
  }

  /** One number handed out, one event: whatever the channels got of it keeps the room numbered. */
  lemma NumberedNext(r: Room, next: Room, events: seq<Payload>, event: Payload, copies: Channel -> nat)
    requires Numbered(r, events) && next.nextEventSeq == r.nextEventSeq + 1
    requires forall ch :: Grown(Log(r.sent, ch), Log(next.sent, ch), copies(ch), r.nextEventSeq, event)
    ensures Numbered(next, events + [event])
  {
    forall ch, i | 0 <= i < |Log(next.sent, ch)|
      ensures Tells(Log(next.sent, ch)[i], events + [event])
    {
      var before, after := Log(r.sent, ch), Log(next.sent, ch);
      assert Grown(before, after, copies(ch), r.nextEventSeq, event);
      if i < |before| {
        assert after[i] == after[..|before|][i];
        assert Tells(before[i], events);
      }
    }
  }

  lemma NumberedReply(r: Room, events: seq<Payload>, to: Channel, payload: Payload)
    requires Numbered(r, events)
    ensures Numbered(Reply(r, to, payload), events + [Erase(payload)])
  {
    NumberedNext(r, Reply(r, to, payload), events, Erase(payload), ch => if ch == to then 1 else 0);
  }

  lemma NumberedSync(r: Room, events: seq<Payload>, reason: SyncReason, now: Seat -> nat)
    requires Numbered(r, events)
    ensures Numbered(BroadcastSync(r, reason, now), events + [SyncNotice(r.core, r.nextEventSeq, reason)])
  {
    var next := BroadcastSync(r, reason, now);
    forall ch
      ensures Grown(Log(r.sent, ch), Log(next.sent, ch), Holders(r.core.playersBySeat, ch, 4), r.nextEventSeq,
                    SyncNotice(r.core, r.nextEventSeq, reason))
    {
      SyncSeatsGrow(r.core, r.sent, 4, r.nextEventSeq, reason, now, ch);
    }
    NumberedNext(r, next, events, SyncNotice(r.core, r.nextEventSeq, reason),
                 ch => Holders(r.core.playersBySeat, ch, 4));
  }

  lemma NumberedConnection(r: Room, events: seq<Payload>, seat: Seat, connected: bool, now: Seat -> nat)
    requires Numbered(r, events) && seat in r.core.playersBySeat
    ensures Numbered(BroadcastConnection(r, seat, connected, now), events + [ConnectionNotice(r.core, seat, connected)])
  {
    var next := BroadcastConnection(r, seat, connected, now);
    var frame := Frame(r.nextEventSeq, ConnectionPayload(r.core, seat, connected, now));
    forall ch
      ensures Grown(Log(r.sent, ch), Log(next.sent, ch), Holders(r.core.playersBySeat, ch, 4), r.nextEventSeq,
                    ConnectionNotice(r.core, seat, connected))
    {
      NotifySeatsGrow(r.core.playersBySeat, r.sent, 4, frame, ch);
    }
    NumberedNext(r, next, events, ConnectionNotice(r.core, seat, connected),
                 ch => Holders(r.core.playersBySeat, ch, 4));
  }

  lemma JoinNumbered(r: Room, events: seq<Payload>, entry: Entry)
    requires Numbered(r, events) && entry.command.Join?
    ensures Numbered(Step(r, entry), events + Notices(r, entry))
  {
    var Join(requestId, connection, join) := entry.command;
    var now, ch, open := entry.inputs.now, connection.outboundTx, NextOpenSeat(r.core.playersBySeat);
    if join.userId in r.core.userToSeat {
      NumberedReply(r, events, ch, JoinReply(r, requestId, connection, AlreadyJoined, r.core.userToSeat[join.userId], ""));
    } else if open.None? {
      NumberedReply(r, events, ch, JoinReply(r, requestId, connection, SeatUnavailable, NoSeat, ""));
    } else {
      var joined := r.(core := Enroll(r.core, connection, join, open.value));
      var reply := JoinReply(joined, requestId, connection, NoReject, open.value, ResumeToken(r.core.roomId, join.userId));
      assert reply == JoinReply(r, requestId, connection, NoReject, open.value, ResumeToken(r.core.roomId, join.userId));
      var sync := SyncNotice(joined.core, r.nextEventSeq + 1, ServerResync);
      NumberedReply(joined, events, ch, reply);
      var told := Reply(joined, ch, reply);
      NumberedSync(told, events + [reply], ServerResync, now);
      var synced := BroadcastSync(told, ServerResync, now);
      NumberedConnection(synced, events + [reply] + [sync], open.value, true, now);
      assert events + [reply] + [sync] + [ConnectionNotice(joined.core, open.value, true)]
          == events + [reply, sync, ConnectionNotice(joined.core, open.value, true)];
    }
  }

  lemma ResumeNumbered(r: Room, events: seq<Payload>, entry: Entry)
    requires Numbered(r, events) && entry.command.ResumeSession?
    ensures Numbered(Step(r, entry), events + Notices(r, entry))
  {
    var ResumeSession(requestId, connection, resume) := entry.command;
    var now, ch, refusal := entry.inputs.now, connection.outboundTx, ResumeRefusal(r.core, resume);
    if refusal.Some? {
      NumberedReply(r, events, ch, Rejection(r, requestId, refusal.value, resume.lastReceivedEventSeq, 0));
    } else {
      var seat := r.core.userToSeat[resume.userId];
      var back := r.(core := Rebind(r.core, seat, connection));
      var snapshot := SyncPayload(back.core, seat, back.nextEventSeq, Reconnect, now(seat));
      var sync := SyncNotice(back.core, r.nextEventSeq, Reconnect);
      NumberedReply(back, events, ch, snapshot);
      NumberedConnection(Reply(back, ch, snapshot), events + [sync], seat, true, now);
      assert events + [sync] + [ConnectionNotice(back.core, seat, true)]
          == events + [sync, ConnectionNotice(back.core, seat, true)];
    }
  }

  lemma DisconnectNumbered(r: Room, events: seq<Payload>, entry: Entry)
    requires Numbered(r, events) && entry.command.Disconnect?
    ensures Numbered(Step(r, entry), events + Notices(r, entry))
  {
    var c, now := entry.command.connectionId, entry.inputs.now;
    var seat := SeatForConnection(r.core, c);
    if seat.Some? && seat.value in r.core.playersBySeat {
      var gone := r.(core := Unseat(Forget(r.core, c), seat.value));
      var sync := SyncNotice(gone.core, r.nextEventSeq, ServerResync);
      NumberedSync(gone, events, ServerResync, now);
      NumberedConnection(BroadcastSync(gone, ServerResync, now), events + [sync], seat.value, false, now);
      assert events + [sync] + [ConnectionNotice(gone.core, seat.value, false)]
          == events + [sync, ConnectionNotice(gone.core, seat.value, false)];
    } else {
      assert events + [] == events;
    }
  }

  lemma ActionNumbered(r: Room, events: seq<Payload>, entry: Entry)
    requires Numbered(r, events) && entry.command.PlayerAction?
    ensures Numbered(Step(r, entry), events + Notices(r, entry))
  {
    var PlayerAction(requestId, c, request) := entry.command;
    var screening, ch := Screen(r.core, c, request), ChannelFor(r.core, c);
    assert events + [] == events;
    if screening.Toggle? {
      if screening.seat in r.core.playersBySeat {
        NumberedSync(r.(core := SetAutoPlay(r.core, screening.seat, screening.enabled)), events, ServerResync, entry.inputs.now);
      }
    } else if ch.Some? {
      NumberedReply(r, events, ch.value, Rejection(r, requestId, ActionCode(r, screening, request, entry.inputs.answer),
                                                   request.expectedEventSeq, request.actionWindowId));
    }
  }

  lemma StepNumbered(r: Room, events: seq<Payload>, entry: Entry)
    requires Numbered(r, events)
    ensures Numbered(Step(r, entry), events + Notices(r, entry))
  {
    match entry.command {
      case Join(_, _, _) => JoinNumbered(r, events, entry);
      case Ready(_, c, ready) =>
        assert events + [] == events;
        if SeatForConnection(r.core, c).Some? {
          var core := MarkReady(r.core, SeatForConnection(r.core, c).value, ready);
          NumberedSync(r.(core := core), events, ReadyReason(core), entry.inputs.now);
        }
      case ResumeSession(_, _, _) => ResumeNumbered(r, events, entry);
      case PlayerAction(_, _, _) => ActionNumbered(r, events, entry);
      case Disconnect(_) => DisconnectNumbered(r, events, entry);
    }
  }

  /**
   * Over any run the numbers handed out are exactly 1 to next-1, one to each
   * event of the history, and every frame on every channel tells the event of
   * its own number.
   */
  lemma {:induction false} RunNumbered(roomId: RoomId, script: seq<Entry>)
    ensures Numbered(Run(roomId, script), History(roomId, script))
  {
    if script != [] {
      var last := |script| - 1;
      RunNumbered(roomId, script[..last]);
      StepNumbered(Run(roomId, script[..last]), History(roomId, script[..last]), script[last]);
    }
  }

  lemma SentTells(r: Room, events: seq<Payload>, f: Frame, ch: Channel)
    requires Numbered(r, events) && f in Log(r.sent, ch)
    ensures Tells(f, events)
  {
    var i :| 0 <= i < |Log(r.sent, ch)| && Log(r.sent, ch)[i] == f;
  }

  lemma SameNumber(r: Room, events: seq<Payload>, f: Frame, g: Frame, a: Channel, b: Channel)
    requires Numbered(r, events) && f in Log(r.sent, a) && g in Log(r.sent, b) && f.eventSeq == g.eventSeq
    ensures Erase(f.payload) == Erase(g.payload)
  {
    SentTells(r, events, f, a);
    SentTells(r, events, g, b);
  }

  /** Frames that share a number differ at most in the recipient's seat and in clock readings. */
  lemma SameNumberSameEvent(roomId: RoomId, script: seq<Entry>, f: Frame, g: Frame, a: Channel, b: Channel)
    requires f in Log(Run(roomId, script).sent, a) && g in Log(Run(roomId, script).sent, b)
    requires f.eventSeq == g.eventSeq
    ensures Erase(f.payload) == Erase(g.payload)
  {
    RunNumbered(roomId, script);
    SameNumber(Run(roomId, script), History(roomId, script), f, g, a, b);
  }

  // ---------- numbers along one channel ----------

  ghost predicate Ascending(log: seq<Frame>) {
    forall i, j | 0 <= i < j < |log| :: log[i].eventSeq < log[j].eventSeq
  }

  ghost predicate Below(log: seq<Frame>, n: nat) {
    forall i | 0 <= i < |log| :: log[i].eventSeq < n
  }

  lemma GrownAscending(before: seq<Frame>, after: seq<Frame>, copies: nat, eventSeq: nat, notice: Payload)
    requires Grown(before, after, copies, eventSeq, notice) && Below(before, eventSeq)
    ensures Ascending(after) <==> Ascending(before) && copies <= 1
    ensures Below(after, eventSeq + 1)
  {
    assert forall i | 0 <= i < |before| :: after[i] == after[..|before|][i];
    if 2 <= copies {
      assert after[|before|].eventSeq == after[|before| + 1].eventSeq;
    }
  }

  lemma ReplyAscending(r: Room, to: Channel, payload: Payload, ch: Channel)
    requires Below(Log(r.sent, ch), r.nextEventSeq)
    ensures Ascending(Log(Reply(r, to, payload).sent, ch)) <==> Ascending(Log(r.sent, ch))
    ensures Below(Log(Reply(r, to, payload).sent, ch), r.nextEventSeq + 1)
  {
    GrownAscending(Log(r.sent, ch), Log(Reply(r, to, payload).sent, ch), if ch == to then 1 else 0,
                   r.nextEventSeq, Erase(payload));
  }

  lemma SyncAscending(r: Room, reason: SyncReason, now: Seat -> nat, ch: Channel)
    requires Below(Log(r.sent, ch), r.nextEventSeq)
    ensures Ascending(Log(BroadcastSync(r, reason, now).sent, ch))
       <==> Ascending(Log(r.sent, ch)) && Holders(r.core.playersBySeat, ch, 4) <= 1
    ensures Below(Log(BroadcastSync(r, reason, now).sent, ch), r.nextEventSeq + 1)
  {
    SyncSeatsGrow(r.core, r.sent, 4, r.nextEventSeq, reason, now, ch);
    GrownAscending(Log(r.sent, ch), Log(BroadcastSync(r, reason, now).sent, ch),
                   Holders(r.core.playersBySeat, ch, 4), r.nextEventSeq, SyncNotice(r.core, r.nextEventSeq, reason));
  }

  lemma ConnectionAscending(r: Room, seat: Seat, connected: bool, now: Seat -> nat, ch: Channel)
    requires Below(Log(r.sent, ch), r.nextEventSeq) && seat in r.core.playersBySeat
    ensures Ascending(Log(BroadcastConnection(r, seat, connected, now).sent, ch))
       <==> Ascending(Log(r.sent, ch)) && Holders(r.core.playersBySeat, ch, 4) <= 1
    ensures Below(Log(BroadcastConnection(r, seat, connected, now).sent, ch), r.nextEventSeq + 1)
  {
    var frame := Frame(r.nextEventSeq, ConnectionPayload(r.core, seat, connected, now));
    NotifySeatsGrow(r.core.playersBySeat, r.sent, 4, frame, ch);
    GrownAscending(Log(r.sent, ch), Log(BroadcastConnection(r, seat, connected, now).sent, ch),
                   Holders(r.core.playersBySeat, ch, 4), r.nextEventSeq, Erase(frame.payload));
  }

  /** Commands that make the room address all its listeners. */
  predicate Broadcasts(core: Core, command: Command) {
    match command
    case Join(_, _, _) => Accepted(core, command)
    case Ready(_, c, _) => SeatForConnection(core, c).Some?
    case ResumeSession(_, _, _) => Accepted(core, command)
    case PlayerAction(_, c, request) =>
      var screening := Screen(core, c, request);
      screening.Toggle? && screening.seat in core.playersBySeat
    case Disconnect(c) =>
      SeatForConnection(core, c).Some? && SeatForConnection(core, c).value in core.playersBySeat
  }

  /** At most one slot listens on the channel whenever the command broadcasts. */
  predicate SingleFile(core: Core, command: Command, ch: Channel) {
    Broadcasts(core, command) ==> Holders(NextCore(core, command).playersBySeat, ch, 4) <= 1
  }

  lemma JoinAscending(r: Room, entry: Entry, ch: Channel)
    requires Below(Log(r.sent, ch), r.nextEventSeq) && entry.command.Join?
    ensures Below(Log(Step(r, entry).sent, ch), Step(r, entry).nextEventSeq)
    ensures Ascending(Log(Step(r, entry).sent, ch))
       <==> Ascending(Log(r.sent, ch)) && SingleFile(r.core, entry.command, ch)
  {
    var Join(requestId, connection, join) := entry.command;
    var now, to, open := entry.inputs.now, connection.outboundTx, NextOpenSeat(r.core.playersBySeat);
    if join.userId in r.core.userToSeat {
      ReplyAscending(r, to, JoinReply(r, requestId, connection, AlreadyJoined, r.core.userToSeat[join.userId], ""), ch);
    } else if open.None? {
      ReplyAscending(r, to, JoinReply(r, requestId, connection, SeatUnavailable, NoSeat, ""), ch);
    } else {
      var joined := r.(core := Enroll(r.core, connection, join, open.value));
      var reply := JoinReply(joined, requestId, connection, NoReject, open.value, ResumeToken(r.core.roomId, join.userId));
      ReplyAscending(joined, to, reply, ch);
      var told := Reply(joined, to, reply);
      SyncAscending(told, ServerResync, now, ch);
      ConnectionAscending(BroadcastSync(told, ServerResync, now), open.value, true, now, ch);
    }
  }

  lemma ResumeAscending(r: Room, entry: Entry, ch: Channel)
    requires Below(Log(r.sent, ch), r.nextEventSeq) && entry.command.ResumeSession?
    ensures Below(Log(Step(r, entry).sent, ch), Step(r, entry).nextEventSeq)
    ensures Ascending(Log(Step(r, entry).sent, ch))
       <==> Ascending(Log(r.sent, ch)) && SingleFile(r.core, entry.command, ch)
  {
    var ResumeSession(requestId, connection, resume) := entry.command;
    var now, to, refusal := entry.inputs.now, connection.outboundTx, ResumeRefusal(r.core, resume);
    if refusal.Some? {
      ReplyAscending(r, to, Rejection(r, requestId, refusal.value, resume.lastReceivedEventSeq, 0), ch);
    } else {
      var seat := r.core.userToSeat[resume.userId];
      var back := r.(core := Rebind(r.core, seat, connection));
      var snapshot := SyncPayload(back.core, seat, back.nextEventSeq, Reconnect, now(seat));
      ReplyAscending(back, to, snapshot, ch);
      ConnectionAscending(Reply(back, to, snapshot), seat, true, now, ch);
    }
  }

  lemma ActionAscending(r: Room, entry: Entry, ch: Channel)
    requires Below(Log(r.sent, ch), r.nextEventSeq) && entry.command.PlayerAction?
    ensures Below(Log(Step(r, entry).sent, ch), Step(r, entry).nextEventSeq)
    ensures Ascending(Log(Step(r, entry).sent, ch))
       <==> Ascending(Log(r.sent, ch)) && SingleFile(r.core, entry.command, ch)
  {
    var PlayerAction(requestId, c, request) := entry.command;
    var screening, to := Screen(r.core, c, request), ChannelFor(r.core, c);
    if screening.Toggle? {
      if screening.seat in r.core.playersBySeat {
        SyncAscending(r.(core := SetAutoPlay(r.core, screening.seat, screening.enabled)), ServerResync, entry.inputs.now, ch);
      }
    } else if to.Some? {
      ReplyAscending(r, to.value, Rejection(r, requestId, ActionCode(r, screening, request, entry.inputs.answer),
                                            request.expectedEventSeq, request.actionWindowId), ch);
    }
  }

  lemma DisconnectAscending(r: Room, entry: Entry, ch: Channel)
    requires Below(Log(r.sent, ch), r.nextEventSeq) && entry.command.Disconnect?
    ensures Below(Log(Step(r, entry).sent, ch), Step(r, entry).nextEventSeq)
    ensures Ascending(Log(Step(r, entry).sent, ch))
       <==> Ascending(Log(r.sent, ch)) && SingleFile(r.core, entry.command, ch)
  {
    var c, now := entry.command.connectionId, entry.inputs.now;
    var seat := SeatForConnection(r.core, c);
    if seat.Some? && seat.value in r.core.playersBySeat {
      var gone := r.(core := Unseat(Forget(r.core, c), seat.value));
      SyncAscending(gone, ServerResync, now, ch);
      ConnectionAscending(BroadcastSync(gone, ServerResync, now), seat.value, false, now, ch);
    }
  }

  /**
   * One command keeps the numbers on a channel strictly increasing if and only
   * if, should it broadcast, at most one slot listens on that channel.
   */
  lemma StepAscendingIff(r: Room, entry: Entry, ch: Channel)
    requires Below(Log(r.sent, ch), r.nextEventSeq)
    ensures Below(Log(Step(r, entry).sent, ch), Step(r, entry).nextEventSeq)
    ensures Ascending(Log(Step(r, entry).sent, ch))
       <==> Ascending(Log(r.sent, ch)) && SingleFile(r.core, entry.command, ch)
  {
    match entry.command {
      case Join(_, _, _) => JoinAscending(r, entry, ch);
      case Ready(_, c, ready) =>
        if SeatForConnection(r.core, c).Some? {
          var core := MarkReady(r.core, SeatForConnection(r.core, c).value, ready);
          SyncAscending(r.(core := core), ReadyReason(core), entry.inputs.now, ch);
        }
      case ResumeSession(_, _, _) => ResumeAscending(r, entry, ch);
      case PlayerAction(_, _, _) => ActionAscending(r, entry, ch);
      case Disconnect(_) => DisconnectAscending(r, entry, ch);
    }
  }

  /** No command of the run finds two slots on the channel where it broadcasts. */
  ghost predicate SingleFileThroughout(roomId: RoomId, script: seq<Entry>, ch: Channel) {
    script != [] ==>
      && SingleFileThroughout(roomId, script[..|script| - 1], ch)
      && SingleFile(Run(roomId, script[..|script| - 1]).core, script[|script| - 1].command, ch)
  }

  /**
   * The numbers a room sends along a channel strictly increase over a run if
   * and only if no broadcast of it finds two slots on that channel.
   */
  lemma {:induction false} AscendingIff(roomId: RoomId, script: seq<Entry>, ch: Channel)
    ensures Below(Log(Run(roomId, script).sent, ch), Run(roomId, script).nextEventSeq)
    ensures Ascending(Log(Run(roomId, script).sent, ch)) <==> SingleFileThroughout(roomId, script, ch)
  {
    if script != [] {
      var before, entry := script[..|script| - 1], script[|script| - 1];
      AscendingIff(roomId, before, ch);
      StepAscendingIff(Run(roomId, before), entry, ch);
    }
  }

  // ---------- well-behaved connections ----------

  /** A channel belongs to one connection. */
  ghost predicate OwnChannels(commands: seq<Command>) {
    forall i, j | 0 <= i < |commands| && 0 <= j < |commands| && Binds(commands[i]) && Binds(commands[j])
                  && commands[i].connection.outboundTx == commands[j].connection.outboundTx ::
      commands[i].connection.connectionId == commands[j].connection.connectionId
  }

  lemma OneSlotPerChannel(roomId: RoomId, commands: seq<Command>, s: Seat, t: Seat)
    requires OneUserPerConnection(commands) && OwnChannels(commands)
    requires ListensAt(CoreAfter(roomId, commands).playersBySeat, s) && ListensAt(CoreAfter(roomId, commands).playersBySeat, t)
    requires CoreAfter(roomId, commands).playersBySeat[s].outboundTx == CoreAfter(roomId, commands).playersBySeat[t].outboundTx
    ensures s == t
  {
    var players := CoreAfter(roomId, commands).playersBySeat;
    CoreAlwaysSound(roomId, commands);
    SlotsTraced(roomId, commands);
    ConnectionsMatchSeats(roomId, commands);
    assert BoundBy(commands, ConnectionHandle(players[s].connectionId.value, players[s].outboundTx.value), players[s].userId);
    assert BoundBy(commands, ConnectionHandle(players[t].connectionId.value, players[t].outboundTx.value), players[t].userId);
  }

  lemma {:induction false} FewHolders(players: map<Seat, PlayerSlot>, ch: Channel, k: nat)
    requires k <= 4
    requires forall s, t | ListensAt(players, s) && ListensAt(players, t)
                           && players[s].outboundTx == Some(ch) && players[t].outboundTx == Some(ch) :: s == t
    ensures Holders(players, ch, k) <= 1
    ensures Holders(players, ch, k) == 1 ==>
              exists j: nat :: j < k && ListensAt(players, SeatAt(j)) && players[SeatAt(j)].outboundTx == Some(ch)
  {
    if k != 0 {
      FewHolders(players, ch, k - 1);
    }
  }

  /** No two slots ever listen on one channel. */
  lemma OneHolder(roomId: RoomId, commands: seq<Command>, ch: Channel)
    requires OneUserPerConnection(commands) && OwnChannels(commands)
    ensures Holders(CoreAfter(roomId, commands).playersBySeat, ch, 4) <= 1
  {
    var players := CoreAfter(roomId, commands).playersBySeat;
    forall s, t | ListensAt(players, s) && ListensAt(players, t)
                  && players[s].outboundTx == Some(ch) && players[t].outboundTx == Some(ch)
      ensures s == t
    {
      OneSlotPerChannel(roomId, commands, s, t);
    }
    FewHolders(players, ch, 4);
  }

  lemma DisciplineBefore(commands: seq<Command>, command: Command)
    requires OneUserPerConnection(commands + [command]) && OwnChannels(commands + [command])
    ensures OneUserPerConnection(commands) && OwnChannels(commands)
  {
    var now := commands + [command];
    assert forall i | 0 <= i < |commands| :: now[i] == commands[i];
  }

  lemma SingleFileStep(roomId: RoomId, script: seq<Entry>, entry: Entry, ch: Channel)
    requires OneUserPerConnection(Commands(script) + [entry.command]) && OwnChannels(Commands(script) + [entry.command])
    ensures SingleFile(Run(roomId, script).core, entry.command, ch)
  {
    RunCore(roomId, script);
    CoreAfterOne(roomId, Commands(script), entry.command);
    OneHolder(roomId, Commands(script) + [entry.command], ch);
  }

  lemma {:induction false} SingleFileAlways(roomId: RoomId, script: seq<Entry>, ch: Channel)
    requires OneUserPerConnection(Commands(script)) && OwnChannels(Commands(script))
    ensures SingleFileThroughout(roomId, script, ch)
  {
    if script != [] {
      var before, entry := script[..|script| - 1], script[|script| - 1];
      assert Commands(script) == Commands(before) + [entry.command];
      DisciplineBefore(Commands(before), entry.command);
      SingleFileAlways(roomId, before, ch);
      SingleFileStep(roomId, before, entry, ch);
    }
  }

  /**
   * If no connection speaks for two users and no channel serves two connections,
   * the numbers a room sends along any channel strictly increase.
   */
  lemma NumbersAscend(roomId: RoomId, script: seq<Entry>, ch: Channel)
    requires OneUserPerConnection(Commands(script)) && OwnChannels(Commands(script))
    ensures Ascending(Log(Run(roomId, script).sent, ch))
  {
    SingleFileAlways(roomId, script, ch);
    AscendingIff(roomId, script, ch);
  }

  /** Two slots listen on a channel after a second join of its connection. */
  lemma TwoSlots(core: Core, socket: ConnectionHandle, command: Command)
    requires command.Join? && command.connection == socket && command.join.userId !in core.userToSeat
    requires ListensAt(core.playersBySeat, East) && South !in core.playersBySeat
    requires core.playersBySeat[East].outboundTx == Some(socket.outboundTx)
    ensures Broadcasts(core, command) && Holders(NextCore(core, command).playersBySeat, socket.outboundTx, 4) >= 2
  {
    var players := NextCore(core, command).playersBySeat;
    assert SeatAt(0) == East && SeatAt(1) == South;
    assert ListensAt(players, East) && ListensAt(players, South);
    assert Holders(players, socket.outboundTx, 1) == 1;
    assert Holders(players, socket.outboundTx, 2) == 2;
    assert Holders(players, socket.outboundTx, 3) >= 2;
  }

  /** Without that discipline numbers repeat: on the channel of a connection that joins as two users. */
  lemma NumbersRepeat(roomId: RoomId, socket: ConnectionHandle, first: Entry, second: Entry)
    requires first.command.Join? && second.command.Join?
    requires first.command.connection == socket && second.command.connection == socket
    requires first.command.join.userId != second.command.join.userId
    ensures !SingleFileThroughout(roomId, [first, second], socket.outboundTx)
    ensures !Ascending(Log(Run(roomId, [first, second]).sent, socket.outboundTx))
  {
    var two := [first, second];
    var core := NextCore(NewCore(roomId), first.command);
    RunCore(roomId, [first]);
    CoreAfterOne(roomId, [], first.command);
    assert Commands([first]) == [] + [first.command] && two[..1] == [first];
    assert Run(roomId, two[..1]).core == core;
    TwoSlots(core, socket, second.command);
    assert !SingleFile(Run(roomId, two[..1]).core, two[1].command, socket.outboundTx);
    AscendingIff(roomId, two, socket.outboundTx);
  }
}
