// What the server's executions mean for its rooms: every room law holds in
// every reachable state, and when all sockets have closed and all queues are
// drained no room still counts on anybody (src/ws.rs:102-107,
// src/room.rs:523-598, 729-748, src/app.rs:36-39).
module Quiescence {
  import opened Protocol
  import opened RoomSpec
  import opened RoomCore
  import opened Connections
  import opened Server
  import opened Interleavings
  import opened Sessions
  import Frames
  import Numbering
  import Replica
  import Table

  /** Every frame the room has sent says what a command it has handled had it say. */
  ghost predicate AllSaid(task: Task) {
    forall ch, f | f in Log(task.room.sent, ch) :: exists k: nat :: Frames.SaidAt(task.roomId, task.handled, k, ch, f)
  }

  /** Every channel that feeds a slot shows the table. */
  ghost predicate AllShown(room: Room) {
    forall ch, seat | Replica.Feeds(room.core, ch, seat) ::
      && Replica.ViewOf(Log(room.sent, ch)).Some?
      && Table.ShowsTable(Replica.ViewOf(Log(room.sent, ch)).value, room.core)
  }

  lemma TaskSays(task: Task)
    requires TaskOk(task)
    ensures AllSaid(task) && AllShown(task.room)
  {
    forall ch, f | f in Log(task.room.sent, ch)
      ensures exists k: nat :: Frames.SaidAt(task.roomId, task.handled, k, ch, f)
    {
      Frames.EveryFrameSays(task.roomId, task.handled, ch, f);
    }
    forall ch, seat | Replica.Feeds(task.room.core, ch, seat)
      ensures Replica.ViewOf(Log(task.room.sent, ch)).Some?
      ensures Table.ShowsTable(Replica.ViewOf(Log(task.room.sent, ch)).value, task.room.core)
    {
      Replica.ReplicasAgree(task.roomId, task.handled, ch, seat);
    }
  }

  /** In every reachable state of the server every room obeys the laws of sequential runs. */
  lemma EveryRoomObeys(trace: seq<Action>, q: QueueId)
    requires q < |Exec(trace).tasks|
    ensures var task := Exec(trace).tasks[q];
            && Sound(task.room.core)
            && AllShown(task.room) && AllSaid(task)
            && Numbering.Numbered(task.room, Numbering.History(task.roomId, task.handled))
  {
    RoomsRunSequentially(trace);
    var task := Exec(trace).tasks[q];
    assert TaskOk(task);
    RunCore(task.roomId, task.handled);
    CoreAlwaysSound(task.roomId, Commands(task.handled));
    TaskSays(task);
    Numbering.RunNumbered(task.roomId, task.handled);
  }

  // ---------- from a queue back to the sessions ----------

  lemma {:induction false} InByOrigin(commands: seq<Command>, command: Command)
    requires command in commands
    ensures command in ByOrigin(commands, Origin(command))
  {
    var last := |commands| - 1;
    if command != commands[last] {
      InByOrigin(commands[..last], command);
    }
  }

  lemma {:induction false} InDelivered(issued: seq<Dispatch>, delivered: seq<bool>, room: RoomId, command: Command)
    requires |delivered| <= |issued| && command in DeliveredTo(issued, delivered, room)
    ensures Dispatch(room, command) in issued
  {
    var k := |delivered| - 1;
    if command in DeliveredTo(issued, delivered[..k], room) {
      InDelivered(issued, delivered[..k], room, command);
    } else {
      assert issued[k] == Dispatch(room, command);
    }
  }

  /** A queued command was issued, for that room, by the session it names. */
  lemma QueuedWasIssued(s: Sys, q: QueueId, command: Command)
    requires HistoriesOk(s) && q < |s.tasks| && command in s.tasks[q].enqueued
    ensures Origin(command) in s.sessions
    ensures Dispatch(s.tasks[q].roomId, command) in s.sessions[Origin(command)].issued
    ensures command in Delivered(s.sessions[Origin(command)], s.tasks[q].roomId)
  {
    InByOrigin(s.tasks[q].enqueued, command);
    var session := s.sessions[Origin(command)];
    InDelivered(session.issued, session.delivered, s.tasks[q].roomId, command);
  }

  // ---------- channels and users ----------

  /** A session never speaks for two users. */
  ghost predicate OneUser(session: Session) {
    forall d, e | d in session.issued && e in session.issued && Binds(d.command) && Binds(e.command) ::
      BoundUser(d.command) == BoundUser(e.command)
  }

  lemma QueuedOneUser(s: Sys, q: QueueId)
    requires HistoriesOk(s) && q < |s.tasks| && forall c | c in s.sessions :: OneUser(s.sessions[c])
    ensures OneUserPerConnection(s.tasks[q].enqueued)
  {
    var commands := s.tasks[q].enqueued;
    forall i, j | 0 <= i < |commands| && 0 <= j < |commands| && Binds(commands[i]) && Binds(commands[j])
                  && commands[i].connection.connectionId == commands[j].connection.connectionId
      ensures BoundUser(commands[i]) == BoundUser(commands[j])
    {
      QueuedWasIssued(s, q, commands[i]);
      QueuedWasIssued(s, q, commands[j]);
    }
  }

  /** Every session has a channel of its own. */
  lemma QueuedOwnChannels(s: Sys, q: QueueId)
    requires NamesOk(s) && HistoriesOk(s) && q < |s.tasks|
    ensures Numbering.OwnChannels(s.tasks[q].enqueued)
  {
    var commands := s.tasks[q].enqueued;
    forall i, j | 0 <= i < |commands| && 0 <= j < |commands| && Binds(commands[i]) && Binds(commands[j])
                  && commands[i].connection.outboundTx == commands[j].connection.outboundTx
      ensures commands[i].connection.connectionId == commands[j].connection.connectionId
    {
      QueuedWasIssued(s, q, commands[i]);
      QueuedWasIssued(s, q, commands[j]);
      assert commands[i].connection == s.sessions[Origin(commands[i])].handle;
      assert commands[j].connection == s.sessions[Origin(commands[j])].handle;
    }
  }

  /**
   * If no session speaks for two users, the numbers that any room sends along
   * any connection's channel strictly increase, under every interleaving.
   */
  lemma NumbersAscendEverywhere(trace: seq<Action>, q: QueueId, ch: Channel)
    requires q < |Exec(trace).tasks|
    requires forall c | c in Exec(trace).sessions :: OneUser(Exec(trace).sessions[c])
    ensures Numbering.Ascending(Log(Exec(trace).tasks[q].room.sent, ch))
  {
    var s := Exec(trace);
    ExecServerOk(trace);
    QueuedOneUser(s, q);
    QueuedOwnChannels(s, q);
    var task := s.tasks[q];
    assert TaskOk(task);
    var handled := Commands(task.handled);
    assert forall i | 0 <= i < |handled| :: handled[i] == task.enqueued[i];
    Numbering.NumbersAscend(task.roomId, task.handled, ch);
  }

  // ---------- quiescence ----------

  /** Every socket has closed, every queue is empty and no task waits for the rule engine. */
  ghost predicate Quiet(s: Sys) {
    && (forall c | c in s.sessions :: s.sessions[c].pc.Closed?)
    && (forall q: nat | q < |s.tasks| :: s.tasks[q].queue == [] && s.tasks[q].awaiting.None?)
  }

  /** A session never names two rooms. */
  ghost predicate OneRoom(session: Session) {
    forall d, e | d in session.issued && e in session.issued :: d.room == e.room
  }

  /** The last command of a connection in a queue comes after all its others. */
  lemma {:induction false} LastOfOrigin(commands: seq<Command>, c: ConnectionId, i: nat)
    requires i < |commands| && Origin(commands[i]) == c
    ensures ByOrigin(commands, c) != []
    ensures ByOrigin(commands, c)[|ByOrigin(commands, c)| - 1] in commands[i..]
  {
    var last := |commands| - 1;
    if Origin(commands[last]) == c {
      assert commands[i..][last - i] == commands[last];
    } else {
      LastOfOrigin(commands[..last], c, i);
      assert commands[i..] == commands[..last][i..] + [commands[last]];
    }
  }

  /** A closed session of one room ends that room's part of its history with its disconnect. */
  lemma ClosedEndsWithDisconnect(session: Session, room: RoomId)
    requires SessionOk(session) && MissedOk(session) && OneRoom(session) && session.pc.Closed?
    requires Delivered(session, room) != []
    ensures Delivered(session, room)[|Delivered(session, room)| - 1] == Disconnect(session.handle.connectionId)
  {
    var deliveries := Delivered(session, room);
    InDelivered(session.issued, session.delivered, room, deliveries[0]);
    var k := |session.delivered| - 1;
    assert session.issued[k] in session.issued && session.issued[k].room == room;
    assert session.delivered[k];
  }

  /** In a drained room's queue the disconnect of a queued command's connection comes at or after it. */
  lemma DisconnectFollows(s: Sys, q: QueueId, i: nat)
    requires HistoriesOk(s) && Quiet(s) && q < |s.tasks| && i < |s.tasks[q].enqueued|
    requires forall c | c in s.sessions :: OneRoom(s.sessions[c])
    ensures Disconnect(Origin(s.tasks[q].enqueued[i])) in s.tasks[q].enqueued[i..]
  {
    var commands, c := s.tasks[q].enqueued, Origin(s.tasks[q].enqueued[i]);
    QueuedWasIssued(s, q, commands[i]);
    ClosedEndsWithDisconnect(s.sessions[c], s.tasks[q].roomId);
    LastOfOrigin(commands, c, i);
    assert ByOrigin(commands, c) == Delivered(s.sessions[c], s.tasks[q].roomId);
  }

  /** Some later command of the queue, or this one, is the disconnect of this one's connection. */
  ghost predicate Followed(commands: seq<Command>, i: nat)
    requires i < |commands|
  {
    Disconnect(Origin(commands[i])) in commands[i..]
  }

  lemma LeavesIfFollowed(commands: seq<Command>)
    requires forall i: nat {:trigger Followed(commands, i)} | i < |commands| :: Followed(commands, i)
    ensures EveryoneLeaves(commands)
  {
    forall i: nat | i < |commands| && Binds(commands[i])
      ensures Disconnect(commands[i].connection.connectionId) in commands[i + 1..]
    {
      assert Followed(commands, i);
      assert commands[i..] == [commands[i]] + commands[i + 1..];
    }
  }

  /** No connection is registered and no slot is connected. */
  ghost predicate Deserted(core: Core) {
    && core.connectionToUser == map[]
    && forall seat | seat in core.playersBySeat ::
         && !core.playersBySeat[seat].connected
         && core.playersBySeat[seat].connectionId.None?
         && core.playersBySeat[seat].outboundTx.None?
  }

  /**
   * Once every socket has closed and every queue is drained, and if each session
   * named one room and one user throughout its life, every room has no
   * registered connection and every slot is disconnected, whatever the order of
   * joins, resumes, takeovers and late disconnects was.
   */
  lemma AllQuietOnEveryRoom(trace: seq<Action>, q: QueueId)
    requires Quiet(Exec(trace)) && q < |Exec(trace).tasks|
    requires forall c | c in Exec(trace).sessions :: OneRoom(Exec(trace).sessions[c]) && OneUser(Exec(trace).sessions[c])
    ensures Deserted(Exec(trace).tasks[q].room.core)
  {
    var s := Exec(trace);
    ExecServerOk(trace);
    var commands := s.tasks[q].enqueued;
    forall i: nat | i < |commands|
      ensures Followed(commands, i)
    {
      DisconnectFollows(s, q, i);
    }
    LeavesIfFollowed(commands);
    QueuedOneUser(s, q);
    var task := s.tasks[q];
    assert TaskOk(task);
    assert Commands(task.handled) == task.enqueued;
    RunCore(task.roomId, task.handled);
    EveryoneGone(task.roomId, task.enqueued);
  }
}
