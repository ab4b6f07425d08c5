// On which channels a room sends at all, and what a connection's whole channel
// then tells (src/room.rs:1039-1145, src/ws.rs:39-50).
module Delivery {
  import opened Wrappers
  import opened Protocol
  import opened RoomSpec
  import opened RoomCore
  import opened Connections
  import opened Replica
  import opened Requests
  import opened Server
  import opened Interleavings
  import opened Sessions
  import opened Quiescence
  import opened Table
  import Numbering

  // ---------- one room ----------

  ghost predicate Fed(core: Core, ch: Channel) {
    exists seat :: Feeds(core, ch, seat)
  }

  lemma {:induction false} HolderIsFed(core: Core, ch: Channel, k: nat)
    requires k <= 4 && Numbering.Holders(core.playersBySeat, ch, k) > 0
    ensures Fed(core, ch)
  {
    if ListensAt(core.playersBySeat, SeatAt(k - 1)) && core.playersBySeat[SeatAt(k - 1)].outboundTx.value == ch {
      assert Feeds(core, ch, SeatAt(k - 1));
    } else {
      HolderIsFed(core, ch, k - 1);
    }
  }

  lemma SyncReaches(r: Room, reason: SyncReason, now: Seat -> nat, ch: Channel)
    ensures Log(BroadcastSync(r, reason, now).sent, ch) == Log(r.sent, ch) || Fed(r.core, ch)
  {
    Numbering.SyncSeatsGrow(r.core, r.sent, 4, r.nextEventSeq, reason, now, ch);
    if Numbering.Holders(r.core.playersBySeat, ch, 4) > 0 {
      HolderIsFed(r.core, ch, 4);
    }
  }

  lemma ConnectionReaches(r: Room, seat: Seat, connected: bool, now: Seat -> nat, ch: Channel)
    ensures Log(BroadcastConnection(r, seat, connected, now).sent, ch) == Log(r.sent, ch) || Fed(r.core, ch)
  {
    if seat in r.core.playersBySeat {
      Numbering.NotifySeatsGrow(r.core.playersBySeat, r.sent, 4,
                                Frame(r.nextEventSeq, ConnectionPayload(r.core, seat, connected, now)), ch);
      if Numbering.Holders(r.core.playersBySeat, ch, 4) > 0 {
        HolderIsFed(r.core, ch, 4);
      }
    }
  }

  /** The channel is the one the command hands over. */
  predicate Hands(command: Command, ch: Channel) {
    Binds(command) && command.connection.outboundTx == ch
  }

  lemma JoinReaches(r: Room, entry: Entry, ch: Channel)
    requires entry.command.Join? && !Hands(entry.command, ch)
    ensures Log(Step(r, entry).sent, ch) == Log(r.sent, ch) || Fed(Step(r, entry).core, ch)
  {
    var command, now := entry.command, entry.inputs.now;
    if Accepted(r.core, command) {
      var seat := NextOpenSeat(r.core.playersBySeat).value;
      var joined := r.(core := Enroll(r.core, command.connection, command.join, seat));
      var told := Reply(joined, command.connection.outboundTx,
                        JoinReply(joined, command.requestId, command.connection, NoReject, seat,
                                  ResumeToken(r.core.roomId, command.join.userId)));
      SyncReaches(told, ServerResync, now, ch);
      ConnectionReaches(BroadcastSync(told, ServerResync, now), seat, true, now, ch);
    } else {
      JoinRefused(r, entry);
    }
  }

  lemma ResumeReaches(r: Room, entry: Entry, ch: Channel)
    requires Linked(r.core) && entry.command.ResumeSession? && !Hands(entry.command, ch)
    ensures Log(Step(r, entry).sent, ch) == Log(r.sent, ch) || Fed(Step(r, entry).core, ch)
  {
    var command, now := entry.command, entry.inputs.now;
    if Accepted(r.core, command) {
      var seat := r.core.userToSeat[command.resume.userId];
      var back := r.(core := Rebind(r.core, seat, command.connection));
      var payload := SyncPayload(back.core, seat, back.nextEventSeq, Reconnect, now(seat));
      ConnectionReaches(Reply(back, command.connection.outboundTx, payload), seat, true, now, ch);
    }
  }

  lemma RejectReaches(r: Room, c: ConnectionId, requestId: string, code: RejectCode, expected: nat, window: nat,
                      ch: Channel)
    ensures Log(Reject(r, c, requestId, code, expected, window).sent, ch) == Log(r.sent, ch) || Fed(r.core, ch)
  {
    if ChannelFor(r.core, c) == Some(ch) {
      assert Feeds(r.core, ch, SeatForConnection(r.core, c).value);
    }
  }

  lemma ActionReaches(r: Room, entry: Entry, ch: Channel)
    requires entry.command.PlayerAction?
    ensures Log(Step(r, entry).sent, ch) == Log(r.sent, ch) || Fed(Step(r, entry).core, ch)
  {
    var c, request := entry.command.connectionId, entry.command.request;
    var screening := Screen(r.core, c, request);
    if screening.Toggle? {
      if screening.seat in r.core.playersBySeat {
        SyncReaches(r.(core := SetAutoPlay(r.core, screening.seat, screening.enabled)), ServerResync, entry.inputs.now, ch);
      }
    } else {
      RejectReaches(r, c, entry.command.requestId, ActionCode(r, screening, request, entry.inputs.answer),
                    request.expectedEventSeq, request.actionWindowId, ch);
    }
  }

  lemma ReadyReaches(r: Room, entry: Entry, ch: Channel)
    requires entry.command.Ready?
    ensures Log(Step(r, entry).sent, ch) == Log(r.sent, ch) || Fed(Step(r, entry).core, ch)
  {
    var c, requestId := entry.command.connectionId, entry.command.requestId;
    match SeatForConnection(r.core, c) {
      case None => RejectReaches(r, c, requestId, NotInRoom, 0, 0, ch);
      case Some(seat) =>
        var core := MarkReady(r.core, seat, entry.command.ready);
        SyncReaches(r.(core := core), if AllReady(core.playersBySeat) then RoundStart else ServerResync,
                    entry.inputs.now, ch);
    }
  }

  lemma DisconnectReaches(r: Room, entry: Entry, ch: Channel)
    requires Linked(r.core) && entry.command.Disconnect?
    ensures Log(Step(r, entry).sent, ch) == Log(r.sent, ch) || Fed(Step(r, entry).core, ch)
  {
    var c, now := entry.command.connectionId, entry.inputs.now;
    if c in r.core.connectionToUser {
      var seat := r.core.userToSeat[r.core.connectionToUser[c]];
      var gone := r.(core := Unseat(Forget(r.core, c), seat));
      SyncReaches(gone, ServerResync, now, ch);
      ConnectionReaches(BroadcastSync(gone, ServerResync, now), seat, false, now, ch);
    }
  }

  /** A command sends on the channel it hands over and on channels that feed a slot, and on no other. */
  lemma StepReaches(r: Room, entry: Entry, ch: Channel)
    requires Linked(r.core)
    ensures || Log(Step(r, entry).sent, ch) == Log(r.sent, ch)
            || Hands(entry.command, ch) || Fed(Step(r, entry).core, ch)
  {
    if !Hands(entry.command, ch) {
      match entry.command {
        case Join(_, _, _) => JoinReaches(r, entry, ch);
        case Ready(_, _, _) => ReadyReaches(r, entry, ch);
        case ResumeSession(_, _, _) => ResumeReaches(r, entry, ch);
        case PlayerAction(_, _, _) => ActionReaches(r, entry, ch);
        case Disconnect(_) => DisconnectReaches(r, entry, ch);
      }
    }
  }

  /** Some command of the list handed the channel over. */
  ghost predicate Handed(commands: seq<Command>, ch: Channel) {
    exists i :: 0 <= i < |commands| && Hands(commands[i], ch)
  }

  lemma HandedGrows(commands: seq<Command>, command: Command, ch: Channel)
    requires Handed(commands, ch) || Hands(command, ch)
    ensures Handed(commands + [command], ch)
  {
    var now := commands + [command];
    if Handed(commands, ch) {
      var i :| 0 <= i < |commands| && Hands(commands[i], ch);
      assert Hands(now[i], ch);
    } else {
      assert Hands(now[|commands|], ch);
    }
  }

  lemma FedIsHanded(roomId: RoomId, commands: seq<Command>, ch: Channel)
    requires Fed(CoreAfter(roomId, commands), ch)
    ensures Handed(commands, ch)
  {
    var seat :| Feeds(CoreAfter(roomId, commands), ch, seat);
    FeederAsked(roomId, commands, ch, seat);
    var i :| 0 <= i < |commands| && Binds(commands[i]) && commands[i].connection.outboundTx == ch;
    assert Hands(commands[i], ch);
  }

  lemma StepHanded(roomId: RoomId, r: Room, commands: seq<Command>, entry: Entry, ch: Channel)
    requires r.core == CoreAfter(roomId, commands) && Linked(r.core)
    requires Log(r.sent, ch) != [] ==> Handed(commands, ch)
    ensures Log(Step(r, entry).sent, ch) != [] ==> Handed(commands + [entry.command], ch)
  {
    if Log(Step(r, entry).sent, ch) != [] {
      StepReaches(r, entry, ch);
      if Handed(commands, ch) || Hands(entry.command, ch) {
        HandedGrows(commands, entry.command, ch);
      } else {
        StepCore(r, entry);
        CoreAfterOne(roomId, commands, entry.command);
        FedIsHanded(roomId, commands + [entry.command], ch);
      }
    }
  }

  /** Over any run, a room sends only on channels that a join or a resume of that run handed to it. */
  lemma {:induction false} SendsOnlyWhereHanded(roomId: RoomId, script: seq<Entry>, ch: Channel)
    ensures Log(Run(roomId, script).sent, ch) != [] ==> Handed(Commands(script), ch)
  {
    if script != [] {
      var before, entry := script[..|script| - 1], script[|script| - 1];
      SendsOnlyWhereHanded(roomId, before, ch);
      RunLinked(roomId, before);
      StepHanded(roomId, Run(roomId, before), Commands(before), entry, ch);
      assert Commands(script) == Commands(before) + [entry.command];
    }
  }

  // ---------- one channel, over all rooms ----------

  /** A room that sends on a session's channel is one the session named. */
  lemma SenderWasNamed(trace: seq<Action>, c: ConnectionId, q: QueueId)
    requires c in Exec(trace).sessions && q < |Exec(trace).tasks|
    requires Log(Exec(trace).tasks[q].room.sent, Exec(trace).sessions[c].handle.outboundTx) != []
    ensures exists d :: d in Exec(trace).sessions[c].issued && d.room == Exec(trace).tasks[q].roomId
  {
    var s := Exec(trace);
    ExecServerOk(trace);
    RoomsRunSequentially(trace);
    var task, ch := s.tasks[q], s.sessions[c].handle.outboundTx;
    assert TaskOk(task);
    SendsOnlyWhereHanded(task.roomId, task.handled, ch);
    var i :| 0 <= i < |task.handled| && Hands(Commands(task.handled)[i], ch);
    var command := Commands(task.handled)[i];
    HandledWasEnqueued(task, i);
    NamedByHandle(s, c, q, command);
  }

  lemma HandledWasEnqueued(task: Task, i: nat)
    requires TaskOk(task) && i < |task.handled|
    ensures Commands(task.handled)[i] in task.enqueued
  {
    assert task.enqueued[i] == Commands(task.handled)[i];
  }

  /** A queued command with a session's channel was issued by that session. */
  lemma NamedByHandle(s: Sys, c: ConnectionId, q: QueueId, command: Command)
    requires NamesOk(s) && HistoriesOk(s) && c in s.sessions && q < |s.tasks| && command in s.tasks[q].enqueued
    requires Hands(command, s.sessions[c].handle.outboundTx)
    ensures Dispatch(s.tasks[q].roomId, command) in s.sessions[c].issued
  {
    QueuedWasIssued(s, q, command);
    assert command.connection == s.sessions[Origin(command)].handle;
  }

  /** Two rooms that both send on the channel of a session of one room are the same. */
  lemma OneSender(trace: seq<Action>, c: ConnectionId, p: QueueId, q: QueueId)
    requires c in Exec(trace).sessions && OneRoom(Exec(trace).sessions[c])
    requires p < |Exec(trace).tasks| && q < |Exec(trace).tasks|
    requires Log(Exec(trace).tasks[p].room.sent, Exec(trace).sessions[c].handle.outboundTx) != []
    requires Log(Exec(trace).tasks[q].room.sent, Exec(trace).sessions[c].handle.outboundTx) != []
    ensures p == q
  {
    SenderWasNamed(trace, c, p);
    SenderWasNamed(trace, c, q);
    OneTaskPerRoom(trace, p, q);
  }

  /** A channel's frames: those of several logs, each in its own order, merged in any way. */
  ghost predicate Merges(logs: seq<seq<Frame>>, all: seq<Frame>)
    decreases |all|
  {
    if all == [] then forall k | 0 <= k < |logs| :: logs[k] == []
    else
      var front, last := all[..|all| - 1], all[|all| - 1];
      exists k :: 0 <= k < |logs| && logs[k] != [] && logs[k][|logs[k]| - 1] == last
                  && Merges(logs[k := logs[k][..|logs[k]| - 1]], front)
  }

  /** Merging one log with empty ones is that log. */
  lemma {:induction false} MergesOne(logs: seq<seq<Frame>>, all: seq<Frame>, q: nat)
    requires Merges(logs, all) && q < |logs| && forall k | 0 <= k < |logs| && k != q :: logs[k] == []
    ensures all == logs[q]
    decreases |all|
  {
    if all != [] {
      var front, last := all[..|all| - 1], all[|all| - 1];
      var k :| 0 <= k < |logs| && logs[k] != [] && logs[k][|logs[k]| - 1] == last
               && Merges(logs[k := logs[k][..|logs[k]| - 1]], front);
      MergesOne(logs[k := logs[k][..|logs[k]| - 1]], front, q);
      assert logs[q] == front + [last];
    }
  }

  /** What all rooms have sent along a channel, room by room. */
  function SentBy(tasks: seq<Task>, ch: Channel): seq<seq<Frame>> {
    seq(|tasks|, q requires 0 <= q < |tasks| => Log(tasks[q].room.sent, ch))
  }

  /**
   * Replica agreement on a whole channel: all that the rooms have sent to a
   * session that ever named one room, merged in any order, folds to the table of
   * the room in which its channel feeds a slot.
   */
  lemma WholeChannelAgrees(trace: seq<Action>, c: ConnectionId, q: QueueId, seat: Seat, all: seq<Frame>)
    requires c in Exec(trace).sessions && OneRoom(Exec(trace).sessions[c]) && q < |Exec(trace).tasks|
    requires Feeds(Exec(trace).tasks[q].room.core, Exec(trace).sessions[c].handle.outboundTx, seat)
    requires Merges(SentBy(Exec(trace).tasks, Exec(trace).sessions[c].handle.outboundTx), all)
    ensures ViewOf(all).Some? && ShowsTable(ViewOf(all).value, Exec(trace).tasks[q].room.core)
  {
    var s := Exec(trace);
    var ch := s.sessions[c].handle.outboundTx;
    EveryRoomObeys(trace, q);
    assert ShowsTable(ViewOf(Log(s.tasks[q].room.sent, ch)).value, s.tasks[q].room.core);
    forall k: nat | k < |s.tasks| && k != q
      ensures Log(s.tasks[k].room.sent, ch) == []
    {
      if Log(s.tasks[k].room.sent, ch) != [] {
        OneSender(trace, c, k, q);
      }
    }
    MergesOne(SentBy(s.tasks, ch), all, q);
  }
}
