// What a client can rebuild from the frames of one channel, and that it is the
// room's public state (src/room.rs:594-597, 1039-1103, 1147-1203).
module Replica {
  import opened Wrappers
  import opened Protocol
  import opened RoomSpec
  import opened RoomCore
  import opened Table

  function MarkSeat(players: seq<PlayerState>, seat: Seat, status: PlayerStatus, connected: bool): (marked: seq<PlayerState>)
    ensures |marked| == |players|
  {
    seq(|players|, i requires 0 <= i < |players| =>
      if players[i].seat == seat then players[i].(status := status, isConnected := connected) else players[i])
  }

  /** A client's view after one more frame: a snapshot replaces it, a connection change marks one seat. */
  function Apply(view: Option<PublicView>, payload: Payload): Option<PublicView> {
    match payload
    case SyncState(_, _, _, _, _, snapshot) => Some(snapshot.table)
    case PlayerConnectionChanged(_, _, _, seat, status, connected, _) =>
      if view.None? then None
      else Some(view.value.(players := MarkSeat(view.value.players, seat, status, connected)))
    case JoinRoom(_, _, _, _, _, _, _, _, _) => view
    case ActionRejected(_, _, _, _, _) => view
  }

  function ViewOf(log: seq<Frame>): Option<PublicView> {
    if log == [] then None
    else Apply(ViewOf(log[..|log| - 1]), log[|log| - 1].payload)
  }

  /** Every slot with a channel is fed exactly the room's public state. */
  ghost predicate Agree(r: Room) {
    forall s | s in r.core.playersBySeat && r.core.playersBySeat[s].outboundTx.Some? ::
      ViewOf(Log(r.sent, r.core.playersBySeat[s].outboundTx.value)) == Some(PublicState(r.core))
  }

  lemma ViewAfterSend(out: Outbox, to: Channel, frame: Frame, ch: Channel)
    ensures ViewOf(Log(Send(out, to, frame), ch))
         == if ch == to then Apply(ViewOf(Log(out, ch)), frame.payload) else ViewOf(Log(out, ch))
  {
    assert (Log(out, to) + [frame])[..|Log(out, to)|] == Log(out, to);
  }

  lemma SnapshotApplies(core: Core, seat: Seat, eventSeq: nat, reason: SyncReason, now: nat, v: Option<PublicView>)
    ensures Apply(v, SyncPayload(core, seat, eventSeq, reason, now)) == Some(PublicState(core))
  {
  }

  /** A snapshot broadcast brings each listening channel to the public state. */
  lemma {:induction false} SyncSeatsView(core: Core, out: Outbox, k: nat, eventSeq: nat, reason: SyncReason,
                                         now: Seat -> nat, ch: Channel, w: Option<PublicView>)
    requires k <= 4 && w == Some(PublicState(core))
    ensures var view := ViewOf(Log(SyncSeats(core, out, k, eventSeq, reason, now), ch));
            && (view == ViewOf(Log(out, ch)) || view == w)
            && forall j: nat | j < k && ListensAt(core.playersBySeat, SeatAt(j))
                               && core.playersBySeat[SeatAt(j)].outboundTx.value == ch :: view == w
  {
    if k != 0 {
      SyncSeatsView(core, out, k - 1, eventSeq, reason, now, ch, w);
      var seat, before := SeatAt(k - 1), SyncSeats(core, out, k - 1, eventSeq, reason, now);
      if ListensAt(core.playersBySeat, seat) {
        var payload := SyncPayload(core, seat, eventSeq, reason, now(seat));
        SnapshotApplies(core, seat, eventSeq, reason, now(seat), ViewOf(Log(before, ch)));
        ViewAfterSend(before, core.playersBySeat[seat].outboundTx.value, Frame(eventSeq, payload), ch);
      }
    }
  }

  /** A notice that takes view v to w, and w to itself, takes each listening channel to w. */
  lemma {:induction false} NotifySeatsView(players: map<Seat, PlayerSlot>, out: Outbox, k: nat, frame: Frame,
                                           ch: Channel, v: Option<PublicView>, w: Option<PublicView>)
    requires k <= 4 && Apply(v, frame.payload) == w && Apply(w, frame.payload) == w
    requires ViewOf(Log(out, ch)) == v || ViewOf(Log(out, ch)) == w
    ensures var view := ViewOf(Log(NotifySeats(players, out, k, frame), ch));
            && (view == v || view == w)
            && (ViewOf(Log(out, ch)) == w ==> view == w)
            && forall j: nat | j < k && ListensAt(players, SeatAt(j))
                               && players[SeatAt(j)].outboundTx.value == ch :: view == w
  {
    if k != 0 {
      NotifySeatsView(players, out, k - 1, frame, ch, v, w);
      if ListensAt(players, SeatAt(k - 1)) {
        ViewAfterSend(NotifySeats(players, out, k - 1, frame), players[SeatAt(k - 1)].outboundTx.value, frame, ch);
      }
    }
  }

  lemma SeatIndex(s: Seat) returns (j: nat)
    requires s != NoSeat
    ensures j < 4 && SeatAt(j) == s
  {
    j := if s == East then 0 else if s == South then 1 else if s == West then 2 else 3;
  }

  lemma BroadcastSyncAgrees(r: Room, reason: SyncReason, now: Seat -> nat)
    requires SeatsNamed(r.core) && Wired(r.core)
    ensures Agree(BroadcastSync(r, reason, now))
  {
    forall s | s in r.core.playersBySeat && r.core.playersBySeat[s].outboundTx.Some?
      ensures ViewOf(Log(BroadcastSync(r, reason, now).sent, r.core.playersBySeat[s].outboundTx.value))
           == Some(PublicState(r.core))
    {
      var j := SeatIndex(s);
      SyncSeatsView(r.core, r.sent, 4, r.nextEventSeq, reason, now, r.core.playersBySeat[s].outboundTx.value,
                    Some(PublicState(r.core)));
    }
  }

  // ---------- marking a seat ----------

  /** The table with one seat's connected flag set. */
  function WithConnected(players: map<Seat, PlayerSlot>, seat: Seat, connected: bool): map<Seat, PlayerSlot>
    requires seat in players
  {
    players[seat := players[seat].(connected := connected)]
  }

  lemma MarkListed(core: Core, s: Seat, seat: Seat, connected: bool)
    requires SeatsNamed(core) && seat in core.playersBySeat
    ensures MarkSeat(Listed(core.playersBySeat, s, core.round.dealerSeat), seat, core.playersBySeat[seat].status, connected)
         == Listed(WithConnected(core.playersBySeat, seat, connected), s, core.round.dealerSeat)
  {
  }

  lemma MarkConcat(a: seq<PlayerState>, b: seq<PlayerState>, seat: Seat, status: PlayerStatus, connected: bool)
    ensures MarkSeat(a + b, seat, status, connected)
         == MarkSeat(a, seat, status, connected) + MarkSeat(b, seat, status, connected)
  {
  }

  /** Marking a seat in the public player list is changing that slot's connected flag. */
  lemma MarkPlayerList(core: Core, seat: Seat, connected: bool)
    requires SeatsNamed(core) && seat in core.playersBySeat
    ensures MarkSeat(PlayerList(core.playersBySeat, core.round.dealerSeat), seat, core.playersBySeat[seat].status, connected)
         == PlayerList(WithConnected(core.playersBySeat, seat, connected), core.round.dealerSeat)
  {
    var dealer, status := core.round.dealerSeat, core.playersBySeat[seat].status;
    var e, s := Listed(core.playersBySeat, East, dealer), Listed(core.playersBySeat, South, dealer);
    var w, n := Listed(core.playersBySeat, West, dealer), Listed(core.playersBySeat, North, dealer);
    MarkConcat(e + s + w, n, seat, status, connected);
    MarkConcat(e + s, w, seat, status, connected);
    MarkConcat(e, s, seat, status, connected);
    MarkListed(core, East, seat, connected);
    MarkListed(core, South, seat, connected);
    MarkListed(core, West, seat, connected);
    MarkListed(core, North, seat, connected);
  }

  /** A connection notice that repeats the slot's own flag changes no view that agrees. */
  lemma NoticeStable(core: Core, seat: Seat, now: Seat -> nat)
    requires SeatsNamed(core) && seat in core.playersBySeat
    ensures Apply(Some(PublicState(core)), ConnectionPayload(core, seat, core.playersBySeat[seat].connected, now))
         == Some(PublicState(core))
  {
    var connected := core.playersBySeat[seat].connected;
    MarkPlayerList(core, seat, connected);
    assert WithConnected(core.playersBySeat, seat, connected) == core.playersBySeat;
  }

  /** A notice that takes every listener's view from the start to the public state makes the room agree. */
  lemma NoticeAgrees(r: Room, seat: Seat, connected: bool, now: Seat -> nat, start: Option<PublicView>)
    requires SeatsNamed(r.core) && Wired(r.core) && seat in r.core.playersBySeat
    requires r.core.playersBySeat[seat].connected == connected
    requires Apply(start, ConnectionPayload(r.core, seat, connected, now)) == Some(PublicState(r.core))
    requires forall s | s in r.core.playersBySeat && r.core.playersBySeat[s].outboundTx.Some? ::
               var view := ViewOf(Log(r.sent, r.core.playersBySeat[s].outboundTx.value));
               view == start || view == Some(PublicState(r.core))
    ensures Agree(BroadcastConnection(r, seat, connected, now))
  {
    var goal := Some(PublicState(r.core));
    NoticeStable(r.core, seat, now);
    forall s | s in r.core.playersBySeat && r.core.playersBySeat[s].outboundTx.Some?
      ensures ViewOf(Log(BroadcastConnection(r, seat, connected, now).sent, r.core.playersBySeat[s].outboundTx.value)) == goal
    {
      var j := SeatIndex(s);
      NotifySeatsView(r.core.playersBySeat, r.sent, 4,
                      Frame(r.nextEventSeq, ConnectionPayload(r.core, seat, connected, now)),
                      r.core.playersBySeat[s].outboundTx.value, start, goal);
    }
  }

  lemma BroadcastConnectionAgrees(r: Room, seat: Seat, now: Seat -> nat)
    requires SeatsNamed(r.core) && Wired(r.core) && Agree(r) && seat in r.core.playersBySeat
    ensures Agree(BroadcastConnection(r, seat, r.core.playersBySeat[seat].connected, now))
  {
    NoticeStable(r.core, seat, now);
    NoticeAgrees(r, seat, r.core.playersBySeat[seat].connected, now, Some(PublicState(r.core)));
  }

  // ---------- handlers ----------

  lemma ReplyAgrees(r: Room, ch: Channel, payload: Payload)
    requires Agree(r) && (payload.JoinRoom? || payload.ActionRejected?)
    ensures Agree(Reply(r, ch, payload))
  {
    forall s | s in r.core.playersBySeat && r.core.playersBySeat[s].outboundTx.Some?
      ensures ViewOf(Log(Reply(r, ch, payload).sent, r.core.playersBySeat[s].outboundTx.value))
           == Some(PublicState(r.core))
    {
      ViewAfterSend(r.sent, ch, Frame(r.nextEventSeq, payload), r.core.playersBySeat[s].outboundTx.value);
    }
  }

  lemma JoinAgrees(r: Room, requestId: string, connection: ConnectionHandle, join: JoinRequest, now: Seat -> nat)
    requires Linked(r.core) && Agree(r)
    ensures Agree(HandleJoin(r, requestId, connection, join, now))
  {
    var ch, open := connection.outboundTx, NextOpenSeat(r.core.playersBySeat);
    if join.userId in r.core.userToSeat {
      ReplyAgrees(r, ch, JoinReply(r, requestId, connection, AlreadyJoined, r.core.userToSeat[join.userId], ""));
    } else if open.None? {
      ReplyAgrees(r, ch, JoinReply(r, requestId, connection, SeatUnavailable, NoSeat, ""));
    } else {
      var core := Enroll(r.core, connection, join, open.value);
      NextCoreLinked(r.core, Join(requestId, connection, join));
      var joined := r.(core := core);
      var told := Reply(joined, ch, JoinReply(joined, requestId, connection, NoReject, open.value,
                                              ResumeToken(r.core.roomId, join.userId)));
      BroadcastSyncAgrees(told, ServerResync, now);
      BroadcastConnectionAgrees(BroadcastSync(told, ServerResync, now), open.value, now);
    }
  }

  lemma RebindPublic(core: Core, seat: Seat, connection: ConnectionHandle)
    requires seat in core.playersBySeat
    ensures PublicState(Rebind(core, seat, connection))
         == PublicState(core).(players := PlayerList(WithConnected(core.playersBySeat, seat, true), core.round.dealerSeat))
  {
  }

  /** The notice of a resume takes the public state before it to the one after it. */
  lemma ResumeNotice(core: Core, seat: Seat, connection: ConnectionHandle, now: Seat -> nat)
    requires SeatsNamed(core) && seat in core.playersBySeat
    ensures var back := Rebind(core, seat, connection);
            Apply(Some(PublicState(core)), ConnectionPayload(back, seat, true, now)) == Some(PublicState(back))
  {
    MarkPlayerList(core, seat, true);
    RebindPublic(core, seat, connection);
  }

  /** The resumer's own channel gets a snapshot, every other stays at the old public state. */
  lemma ResumeSnapshot(r: Room, back: Room, ch: Channel, payload: Payload)
    requires Agree(r) && back.sent == r.sent && payload.SyncState? && payload.snapshot.table == PublicState(back.core)
    requires forall s | s in back.core.playersBySeat && back.core.playersBySeat[s].outboundTx.Some? ::
               || back.core.playersBySeat[s].outboundTx.value == ch
               || (s in r.core.playersBySeat && r.core.playersBySeat[s].outboundTx == back.core.playersBySeat[s].outboundTx)
    ensures forall s | s in back.core.playersBySeat && back.core.playersBySeat[s].outboundTx.Some? ::
              var view := ViewOf(Log(Reply(back, ch, payload).sent, back.core.playersBySeat[s].outboundTx.value));
              view == Some(PublicState(r.core)) || view == Some(PublicState(back.core))
  {
    forall s | s in back.core.playersBySeat && back.core.playersBySeat[s].outboundTx.Some?
      ensures var view := ViewOf(Log(Reply(back, ch, payload).sent, back.core.playersBySeat[s].outboundTx.value));
              view == Some(PublicState(r.core)) || view == Some(PublicState(back.core))
    {
      ViewAfterSend(r.sent, ch, Frame(back.nextEventSeq, payload), back.core.playersBySeat[s].outboundTx.value);
    }
  }

  lemma ReturnAgrees(r: Room, seat: Seat, connection: ConnectionHandle, now: Seat -> nat)
    requires Linked(r.core) && Agree(r) && seat in r.core.playersBySeat
    requires Linked(Rebind(r.core, seat, connection))
    ensures var back := r.(core := Rebind(r.core, seat, connection));
            var told := Reply(back, connection.outboundTx, SyncPayload(back.core, seat, back.nextEventSeq, Reconnect, now(seat)));
            Agree(BroadcastConnection(told, seat, true, now))
  {
    var back := r.(core := Rebind(r.core, seat, connection));
    var snapshot := SyncPayload(back.core, seat, back.nextEventSeq, Reconnect, now(seat));
    ResumeSnapshot(r, back, connection.outboundTx, snapshot);
    ResumeNotice(r.core, seat, connection, now);
    NoticeAgrees(Reply(back, connection.outboundTx, snapshot), seat, true, now, Some(PublicState(r.core)));
  }

  /** After a resume the others see only a notice, the resumer a snapshot too; all end at the public state. */
  lemma ResumeAgrees(r: Room, requestId: string, connection: ConnectionHandle, resume: ResumeRequest, now: Seat -> nat)
    requires Linked(r.core) && Agree(r)
    ensures Agree(HandleResume(r, requestId, connection, resume, now))
  {
    var ch, refusal := connection.outboundTx, ResumeRefusal(r.core, resume);
    if refusal.Some? {
      ReplyAgrees(r, ch, Rejection(r, requestId, refusal.value, resume.lastReceivedEventSeq, 0));
    } else {
      NextCoreLinked(r.core, ResumeSession(requestId, connection, resume));
      ReturnAgrees(r, r.core.userToSeat[resume.userId], connection, now);
    }
  }

  lemma DisconnectAgrees(r: Room, c: ConnectionId, now: Seat -> nat)
    requires Linked(r.core) && Agree(r)
    ensures Agree(HandleDisconnect(r, c, now))
  {
    if c in r.core.connectionToUser {
      var seat := r.core.userToSeat[r.core.connectionToUser[c]];
      var gone := r.(core := Unseat(Forget(r.core, c), seat));
      NextCoreLinked(r.core, Disconnect(c));
      BroadcastSyncAgrees(gone, ServerResync, now);
      BroadcastConnectionAgrees(BroadcastSync(gone, ServerResync, now), seat, now);
    }
  }

  lemma RejectAgrees(r: Room, c: ConnectionId, requestId: string, code: RejectCode, expected: nat, window: nat)
    requires Agree(r)
    ensures Agree(Reject(r, c, requestId, code, expected, window))
  {
    var ch := ChannelFor(r.core, c);
    if ch.Some? {
      ReplyAgrees(r, ch.value, Rejection(r, requestId, code, expected, window));
    }
  }

  lemma ToggleAgrees(r: Room, seat: Seat, enabled: bool, now: Seat -> nat)
    requires Linked(r.core) && seat in r.core.playersBySeat
    ensures Agree(BroadcastSync(r.(core := SetAutoPlay(r.core, seat, enabled)), ServerResync, now))
  {
    var toggled := r.(core := SetAutoPlay(r.core, seat, enabled));
    assert SeatsNamed(toggled.core);
    assert Wired(toggled.core);
    BroadcastSyncAgrees(toggled, ServerResync, now);
  }

  lemma PlayerActionAgrees(r: Room, requestId: string, c: ConnectionId, request: ActionRequest, inputs: Inputs)
    requires Linked(r.core) && Agree(r)
    ensures Agree(HandlePlayerAction(r, requestId, c, request, inputs))
  {
    var screening := Screen(r.core, c, request);
    if !screening.Toggle? {
      RejectAgrees(r, c, requestId, ActionCode(r, screening, request, inputs.answer),
                   request.expectedEventSeq, request.actionWindowId);
    } else if screening.seat in r.core.playersBySeat {
      ToggleAgrees(r, screening.seat, screening.enabled, inputs.now);
    }
  }

  lemma StepAgrees(r: Room, entry: Entry)
    requires Linked(r.core) && Agree(r)
    ensures Agree(Step(r, entry))
  {
    match entry.command {
      case Join(requestId, connection, join) => JoinAgrees(r, requestId, connection, join, entry.inputs.now);
      case Ready(requestId, c, ready) =>
        if SeatForConnection(r.core, c).Some? {
          var core := MarkReady(r.core, SeatForConnection(r.core, c).value, ready);
          NextCoreLinked(r.core, entry.command);
          BroadcastSyncAgrees(r.(core := core), if AllReady(core.playersBySeat) then RoundStart else ServerResync,
                              entry.inputs.now);
        }
      case ResumeSession(requestId, connection, resume) => ResumeAgrees(r, requestId, connection, resume, entry.inputs.now);
      case PlayerAction(requestId, c, request) => PlayerActionAgrees(r, requestId, c, request, entry.inputs);
      case Disconnect(c) => DisconnectAgrees(r, c, entry.inputs.now);
    }
  }

  /** Every command of every run keeps all replicas in agreement. */
  lemma {:induction false} AlwaysAgree(roomId: RoomId, script: seq<Entry>)
    ensures Agree(Run(roomId, script))
  {
    if script != [] {
      var last := |script| - 1;
      AlwaysAgree(roomId, script[..last]);
      RunCore(roomId, script[..last]);
      CoreAlwaysSound(roomId, Commands(script[..last]));
      StepAgrees(Run(roomId, script[..last]), script[last]);
    }
  }

  /** The seat is fed through the channel. */
  predicate Feeds(core: Core, ch: Channel, seat: Seat) {
    seat in core.playersBySeat && core.playersBySeat[seat].outboundTx == Some(ch)
  }

  /**
   * After every run, folding the frames of a channel that feeds a slot gives the
   * table as it is: the phase and the round, and for each taken seat, in order,
   * its player's every public field.
   */
  lemma ReplicasAgree(roomId: RoomId, script: seq<Entry>, ch: Channel, seat: Seat)
    requires Feeds(Run(roomId, script).core, ch, seat)
    ensures ViewOf(Log(Run(roomId, script).sent, ch)).Some?
    ensures ShowsTable(ViewOf(Log(Run(roomId, script).sent, ch)).value, Run(roomId, script).core)
  {
    AlwaysAgree(roomId, script);
    PublicStateShows(Run(roomId, script).core);
  }
}
