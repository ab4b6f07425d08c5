// Websocket sessions over every interleaving: what each has issued, what got into
// the queues, and that each one's own order is kept (src/ws.rs:39-107, 112-201,
// src/room.rs:104-256).
module Sessions {
  import opened Wrappers
  import opened Protocol
  import opened Connections
  import opened Server
  import opened Interleavings

  function Origin(command: Command): ConnectionId {
    if Binds(command) then command.connection.connectionId else command.connectionId
  }

  /** The commands of one connection, in order. */
  function ByOrigin(commands: seq<Command>, c: ConnectionId): seq<Command> {
    if commands == [] then []
    else
      var last := |commands| - 1;
      ByOrigin(commands[..last], c) + if Origin(commands[last]) == c then [commands[last]] else []
  }

  /** What a session issued to one room and got into its queue, in the order of issue. */
  function DeliveredTo(issued: seq<Dispatch>, delivered: seq<bool>, room: RoomId): seq<Command>
    requires |delivered| <= |issued|
  {
    if delivered == [] then []
    else
      var k := |delivered| - 1;
      DeliveredTo(issued, delivered[..k], room)
      + if delivered[k] && issued[k].room == room then [issued[k].command] else []
  }

  predicate Active(session: Session) {
    !session.pc.Idle? && !session.pc.Closed?
  }

  /** A session's history fits where it stands. */
  ghost predicate HistoryOk(session: Session) {
    && |session.issued| == |session.delivered| + (if Active(session) then 1 else 0)
    && (Active(session) ==> session.issued[|session.delivered|] == session.pc.dispatch)
    && session.currentRoom == (if session.issued == [] then None else Some(session.issued[|session.issued| - 1].room))
  }

  /** Everything a session issues carries its own handle; a disconnect is its last word. */
  ghost predicate IssuedOk(session: Session) {
    && (forall d | d in session.issued ::
          Origin(d.command) == session.handle.connectionId && (Binds(d.command) ==> d.command.connection == session.handle))
    && (forall i | 0 <= i < |session.issued| && session.issued[i].command.Disconnect? ::
          i == |session.issued| - 1 && !session.pc.Idle?)
    && (session.pc.Closed? && session.issued != [] ==> session.issued[|session.issued| - 1].command.Disconnect?)
  }

  ghost predicate SessionOk(session: Session) {
    HistoryOk(session) && IssuedOk(session)
  }

  ghost predicate SessionsOk(s: Sys) {
    forall c | c in s.sessions :: SessionOk(s.sessions[c])
  }

  function Delivered(session: Session, room: RoomId): seq<Command>
    requires |session.delivered| <= |session.issued|
  {
    DeliveredTo(session.issued, session.delivered, room)
  }

  // ---------- how an action moves one session ----------

  /** The dispatch the action ends by enqueueing, if it does. */
  predicate Enqueues(s: Sys, a: Action) {
    && a.Enqueue? && a.c in s.sessions && s.sessions[a.c].pc.Enqueueing?
    && s.sessions[a.c].pc.queue < |s.tasks|
    && |s.tasks[s.sessions[a.c].pc.queue].queue| < ROOM_COMMAND_BUFFER
  }

  /** A session stays, moves on, begins a dispatch, or ends one that got into no queue. */
  ghost predicate MovesQuietly(before: Session, after: Session) {
    || after == before
    || (Active(before) && Active(after) && after == before.(pc := after.pc) && after.pc.dispatch == before.pc.dispatch)
    || (Active(before) && after == Finish(before, before.pc.dispatch, false))
    || (before.pc.Idle? && exists frame :: after == Receive(before, frame))
    || (before.pc.Idle? && after == Close(before))
  }

  ghost predicate Moves(before: Session, after: Session) {
    MovesQuietly(before, after) || (Active(before) && after == Finish(before, before.pc.dispatch, true))
  }

  lemma SessionMoves(s: Sys, a: Action, c: ConnectionId)
    requires c in s.sessions && (a.Connect? ==> c != ConnectionName(s.nextConnection))
    ensures c in Next(s, a).sessions
    ensures if Enqueues(s, a) && a.c == c
            then Next(s, a).sessions[c] == Finish(s.sessions[c], s.sessions[c].pc.dispatch, true)
            else MovesQuietly(s.sessions[c], Next(s, a).sessions[c])
  {
    var before, after := s.sessions[c], Next(s, a).sessions[c];
    if a.Lookup? && a.c == c && before.pc.ReadLocked? {
      assert after == Finish(before, before.pc.dispatch, false) || Active(after);
    }
  }

  lemma BeginOk(session: Session, room: RoomId, command: Command)
    requires SessionOk(session) && session.pc.Idle?
    requires Origin(command) == session.handle.connectionId && (Binds(command) ==> command.connection == session.handle)
    ensures SessionOk(Begin(session.(currentRoom := Some(room)), Dispatch(room, command)))
  {
  }

  lemma MovesOk(before: Session, after: Session)
    requires SessionOk(before) && Moves(before, after)
    ensures SessionOk(after)
  {
    if before.pc.Idle? && after != before {
      if after == Close(before) {
        if before.currentRoom.Some? {
          BeginOk(before, before.currentRoom.value, Disconnect(before.handle.connectionId));
        }
      } else {
        var frame :| after == Receive(before, frame);
        var (room, dispatch) := Route(before.handle, before.currentRoom, frame);
        if dispatch.Some? {
          BeginOk(before, dispatch.value.room, dispatch.value.command);
        }
      }
    }
  }

  lemma NewSessionOk(handle: ConnectionHandle)
    ensures SessionOk(Session(handle, None, Idle, [], []))
  {
  }

  // ---------- one action, seen from the histories ----------

  /** A session's step: it enqueues its dispatch, or it moves on; it ends unheard only if its room is missing. */
  ghost predicate SessionStep(s: Sys, a: Action, before: Session, after: Session, c: ConnectionId) {
    if Enqueues(s, a) && a.c == c then Active(before) && after == Finish(before, before.pc.dispatch, true)
    else
      && MovesQuietly(before, after)
      && (Active(before) && after == Finish(before, before.pc.dispatch, false) ==>
            before.pc.dispatch.room !in s.registry)
  }

  /** What the action adds to what a task has enqueued. */
  function Pushed(s: Sys, a: Action, q: QueueId): seq<Command> {
    if Enqueues(s, a) && s.sessions[a.c].pc.queue == q then [s.sessions[a.c].pc.dispatch.command] else []
  }

  /** All that the histories need to know of one action. */
  ghost predicate Follows(s: Sys, a: Action, t: Sys) {
    && (forall c | c in s.sessions :: c in t.sessions && SessionStep(s, a, s.sessions[c], t.sessions[c], c))
    && (forall c | c in t.sessions && c !in s.sessions ::
          t.sessions[c] == Session(t.sessions[c].handle, None, Idle, [], []))
    && |s.tasks| <= |t.tasks|
    && (forall q: nat | q < |s.tasks| ::
          t.tasks[q].roomId == s.tasks[q].roomId && t.tasks[q].enqueued == s.tasks[q].enqueued + Pushed(s, a, q))
    && (forall q: nat | |s.tasks| <= q < |t.tasks| :: t.tasks[q].enqueued == [] && t.tasks[q].roomId !in s.registry)
    && (forall r | r in s.registry :: r in t.registry)
  }

  /** A dispatch ends unheard only in a lookup that finds no room. */
  lemma UnheardOnlyIfMissing(s: Sys, a: Action, c: ConnectionId)
    requires c in s.sessions && Active(s.sessions[c]) && (a.Connect? ==> c != ConnectionName(s.nextConnection))
    ensures c in Next(s, a).sessions
    ensures Next(s, a).sessions[c] == Finish(s.sessions[c], s.sessions[c].pc.dispatch, false) ==>
              s.sessions[c].pc.dispatch.room !in s.registry
  {
    var before := s.sessions[c];
    if Next(s, a).sessions[c] == Finish(before, before.pc.dispatch, false) {
      assert |Next(s, a).sessions[c].delivered| == |before.delivered| + 1;
      assert !Next(s, a).sessions[c].delivered[|before.delivered|];
    }
  }

  lemma NextSessionStep(s: Sys, a: Action, c: ConnectionId)
    requires NamesOk(s) && c in s.sessions
    ensures c in Next(s, a).sessions && SessionStep(s, a, s.sessions[c], Next(s, a).sessions[c], c)
  {
    FreshName(s);
    SessionMoves(s, a, c);
    if Active(s.sessions[c]) {
      UnheardOnlyIfMissing(s, a, c);
    }
  }

  lemma NextPushed(s: Sys, a: Action, q: QueueId)
    requires q < |s.tasks|
    ensures q < |Next(s, a).tasks| && Next(s, a).tasks[q].roomId == s.tasks[q].roomId
    ensures Next(s, a).tasks[q].enqueued == s.tasks[q].enqueued + Pushed(s, a, q)
  {
    NextEnqueued(s, a, q);
    TaskAfter(s, a, q);
  }

  lemma NextNewcomers(s: Sys, a: Action)
    requires CreatorsOk(s)
    ensures |s.tasks| <= |Next(s, a).tasks|
    ensures forall q: nat | |s.tasks| <= q < |Next(s, a).tasks| ::
              Next(s, a).tasks[q].enqueued == [] && Next(s, a).tasks[q].roomId !in s.registry
    ensures forall c | c in Next(s, a).sessions && c !in s.sessions ::
              Next(s, a).sessions[c] == Session(Next(s, a).sessions[c].handle, None, Idle, [], [])
  {
    HandlesKept(s, a);
  }

  lemma NextFollows(s: Sys, a: Action)
    requires NamesOk(s) && CreatorsOk(s)
    ensures Follows(s, a, Next(s, a))
  {
    forall c | c in s.sessions
      ensures c in Next(s, a).sessions && SessionStep(s, a, s.sessions[c], Next(s, a).sessions[c], c)
    {
      NextSessionStep(s, a, c);
    }
    forall q: nat | q < |s.tasks|
      ensures q < |Next(s, a).tasks| && Next(s, a).tasks[q].roomId == s.tasks[q].roomId
      ensures Next(s, a).tasks[q].enqueued == s.tasks[q].enqueued + Pushed(s, a, q)
    {
      NextPushed(s, a, q);
    }
    NextNewcomers(s, a);
    NextKeepsRegistry(s, a);
  }

  lemma FollowsSessionsOk(s: Sys, a: Action, t: Sys)
    requires SessionsOk(s) && Follows(s, a, t)
    ensures SessionsOk(t)
  {
    forall c | c in t.sessions
      ensures SessionOk(t.sessions[c])
    {
      if c in s.sessions {
        MovesOk(s.sessions[c], t.sessions[c]);
      } else {
        NewSessionOk(t.sessions[c].handle);
      }
    }
  }

  // ---------- each connection's own order ----------

  /** Every queued command comes from a session the server knows. */
  ghost predicate OriginsOk(s: Sys) {
    forall q: nat, command | q < |s.tasks| && command in s.tasks[q].enqueued :: Origin(command) in s.sessions
  }

  /** Each connection's commands in a room's queue are what it issued there, in the order of issue. */
  ghost predicate OrderOk(s: Sys)
    requires SessionsOk(s)
  {
    forall c, q: nat | c in s.sessions && q < |s.tasks| ::
      ByOrigin(s.tasks[q].enqueued, c) == Delivered(s.sessions[c], s.tasks[q].roomId)
  }

  /** A room that has no task has been delivered nothing. */
  ghost predicate NothingElsewhere(s: Sys)
    requires SessionsOk(s)
  {
    forall c, room | c in s.sessions && room !in s.registry :: Delivered(s.sessions[c], room) == []
  }

  lemma {:induction false} DeliveredPrefix(issued: seq<Dispatch>, more: seq<Dispatch>, delivered: seq<bool>, room: RoomId)
    requires |delivered| <= |issued|
    ensures DeliveredTo(issued + more, delivered, room) == DeliveredTo(issued, delivered, room)
  {
    if delivered != [] {
      DeliveredPrefix(issued, more, delivered[..|delivered| - 1], room);
    }
  }

  lemma FinishDelivered(before: Session, enqueued: bool, room: RoomId)
    requires SessionOk(before) && Active(before)
    ensures |before.delivered| < |before.issued|
    ensures Delivered(Finish(before, before.pc.dispatch, enqueued), room)
            == Delivered(before, room)
               + if enqueued && before.pc.dispatch.room == room then [before.pc.dispatch.command] else []
  {
    assert Finish(before, before.pc.dispatch, enqueued).delivered[..|before.delivered|] == before.delivered;
  }

  lemma QuietDelivered(before: Session, after: Session, room: RoomId)
    requires SessionOk(before) && MovesQuietly(before, after)
    ensures |after.delivered| <= |after.issued|
    ensures Delivered(after, room) == Delivered(before, room)
  {
    MovesOk(before, after);
    if Active(before) {
      FinishDelivered(before, false, room);
    } else if after.issued != before.issued {
      var last := after.issued[|after.issued| - 1];
      assert after.issued == before.issued + [last];
      DeliveredPrefix(before.issued, [last], before.delivered, room);
    }
  }

  /** What an action adds to a session's deliveries: its dispatch, if that got into the room's queue. */
  lemma DeliveredAfter(s: Sys, a: Action, before: Session, after: Session, c: ConnectionId, room: RoomId)
    requires SessionOk(before) && SessionStep(s, a, before, after, c)
    ensures |after.delivered| <= |after.issued|
    ensures Delivered(after, room)
            == Delivered(before, room)
               + if Enqueues(s, a) && a.c == c && before.pc.dispatch.room == room
                 then [before.pc.dispatch.command] else []
  {
    if Enqueues(s, a) && a.c == c {
      FinishDelivered(before, true, room);
    } else {
      QuietDelivered(before, after, room);
    }
  }

  lemma ByOriginOne(commands: seq<Command>, command: Command, c: ConnectionId)
    ensures ByOrigin(commands + [command], c)
         == ByOrigin(commands, c) + if Origin(command) == c then [command] else []
  {
    assert (commands + [command])[..|commands|] == commands;
  }

  lemma {:induction false} ByOriginNone(commands: seq<Command>, c: ConnectionId)
    requires forall command | command in commands :: Origin(command) != c
    ensures ByOrigin(commands, c) == []
  {
    if commands != [] {
      ByOriginNone(commands[..|commands| - 1], c);
    }
  }

  /** A session in the middle of a dispatch issued it itself. */
  lemma OwnDispatch(session: Session)
    requires SessionOk(session) && Active(session)
    ensures Origin(session.pc.dispatch.command) == session.handle.connectionId
  {
    assert session.issued[|session.delivered|] in session.issued;
  }

  /** The command an action pushes comes from the session that pushes it, to the queue of its room. */
  lemma PushedOwn(s: Sys, a: Action, q: QueueId)
    requires RegistryInv(s) && SessionsOk(s) && Enqueues(s, a) && q < |s.tasks|
    ensures Origin(s.sessions[a.c].pc.dispatch.command) == a.c
    ensures s.sessions[a.c].pc.queue == q <==> s.sessions[a.c].pc.dispatch.room == s.tasks[q].roomId
  {
    OwnDispatch(s.sessions[a.c]);
  }

  lemma FollowsOriginsOk(s: Sys, a: Action, t: Sys)
    requires RegistryInv(s) && SessionsOk(s) && OriginsOk(s) && Follows(s, a, t)
    ensures OriginsOk(t)
  {
    forall q: nat, command | q < |t.tasks| && command in t.tasks[q].enqueued
      ensures Origin(command) in t.sessions
    {
      if q < |s.tasks| && command !in s.tasks[q].enqueued {
        PushedOwn(s, a, q);
      }
    }
  }

  /** What is pushed to a queue is what its pusher gets delivered there, and nobody else anything. */
  lemma PushedByOrigin(s: Sys, a: Action, c: ConnectionId, q: QueueId)
    requires RegistryInv(s) && SessionsOk(s) && c in s.sessions && q < |s.tasks|
    ensures ByOrigin(s.tasks[q].enqueued + Pushed(s, a, q), c)
            == ByOrigin(s.tasks[q].enqueued, c)
               + if Enqueues(s, a) && a.c == c && s.sessions[c].pc.dispatch.room == s.tasks[q].roomId
                 then [s.sessions[c].pc.dispatch.command] else []
  {
    if Enqueues(s, a) {
      PushedOwn(s, a, q);
      ByOriginOne(s.tasks[q].enqueued, s.sessions[a.c].pc.dispatch.command, c);
    }
    assert s.tasks[q].enqueued + [] == s.tasks[q].enqueued;
  }

  /** The session that enqueues gets exactly its dispatch delivered, and nobody else's order is touched. */
  lemma OrderOfOne(s: Sys, a: Action, t: Sys, c: ConnectionId, q: QueueId)
    requires RegistryInv(s) && SessionsOk(s) && OrderOk(s) && Follows(s, a, t)
    requires c in s.sessions && q < |s.tasks|
    ensures |t.sessions[c].delivered| <= |t.sessions[c].issued|
    ensures ByOrigin(t.tasks[q].enqueued, c) == Delivered(t.sessions[c], t.tasks[q].roomId)
  {
    DeliveredAfter(s, a, s.sessions[c], t.sessions[c], c, s.tasks[q].roomId);
    PushedByOrigin(s, a, c, q);
  }

  /** Nothing is delivered to a room that was not registered before. */
  lemma NothingDelivered(s: Sys, a: Action, t: Sys, c: ConnectionId, room: RoomId)
    requires RegistryInv(s) && SessionsOk(s) && NothingElsewhere(s) && Follows(s, a, t)
    requires c in s.sessions && room !in s.registry
    ensures |t.sessions[c].delivered| <= |t.sessions[c].issued| && Delivered(t.sessions[c], room) == []
  {
    DeliveredAfter(s, a, s.sessions[c], t.sessions[c], c, room);
  }

  lemma FollowsOrderOk(s: Sys, a: Action, t: Sys)
    requires RegistryInv(s) && SessionsOk(s) && OriginsOk(s) && OrderOk(s) && NothingElsewhere(s) && Follows(s, a, t)
    requires SessionsOk(t)
    ensures OrderOk(t)
  {
    forall c, q: nat | c in t.sessions && q < |t.tasks|
      ensures ByOrigin(t.tasks[q].enqueued, c) == Delivered(t.sessions[c], t.tasks[q].roomId)
    {
      if c in s.sessions && q < |s.tasks| {
        OrderOfOne(s, a, t, c, q);
      } else if c in s.sessions {
        NothingDelivered(s, a, t, c, t.tasks[q].roomId);
      } else if q < |s.tasks| {
        NobodysCommands(s, a, t, c, q);
      }
    }
  }

  /** No task holds a command of a session that was not there before. */
  lemma NobodysCommands(s: Sys, a: Action, t: Sys, c: ConnectionId, q: QueueId)
    requires RegistryInv(s) && SessionsOk(s) && OriginsOk(s) && Follows(s, a, t) && c !in s.sessions && q < |s.tasks|
    ensures ByOrigin(t.tasks[q].enqueued, c) == []
  {
    forall command | command in t.tasks[q].enqueued
      ensures Origin(command) != c
    {
      if command !in s.tasks[q].enqueued {
        PushedOwn(s, a, q);
      }
    }
    ByOriginNone(t.tasks[q].enqueued, c);
  }

  lemma FollowsNothingElsewhere(s: Sys, a: Action, t: Sys)
    requires RegistryInv(s) && SessionsOk(s) && NothingElsewhere(s) && Follows(s, a, t) && SessionsOk(t)
    ensures NothingElsewhere(t)
  {
    forall c, room | c in t.sessions && room !in t.registry
      ensures Delivered(t.sessions[c], room) == []
    {
      if c in s.sessions {
        NothingDelivered(s, a, t, c, room);
      }
    }
  }

  // ---------- what an unheard dispatch leaves behind ----------

  /** If its latest dispatch found no room, a session has nothing in that room's queue. */
  ghost predicate MissedOk(session: Session)
    requires |session.delivered| <= |session.issued|
  {
    session.delivered != [] && !session.delivered[|session.delivered| - 1] ==>
      Delivered(session, session.issued[|session.delivered| - 1].room) == []
  }

  ghost predicate AllMissedOk(s: Sys)
    requires SessionsOk(s)
  {
    forall c | c in s.sessions :: MissedOk(s.sessions[c])
  }

  lemma UnheardMissedOk(before: Session)
    requires SessionOk(before) && Active(before)
    requires Delivered(before, before.pc.dispatch.room) == []
    ensures |before.delivered| < |before.issued| && MissedOk(Finish(before, before.pc.dispatch, false))
  {
    FinishDelivered(before, false, before.pc.dispatch.room);
  }

  lemma SameMissedOk(before: Session, after: Session)
    requires SessionOk(before) && SessionOk(after) && MovesQuietly(before, after)
    requires after.delivered == before.delivered && MissedOk(before)
    ensures MissedOk(after)
  {
    if before.delivered != [] {
      assert after.issued[|before.delivered| - 1] == before.issued[|before.delivered| - 1];
      QuietDelivered(before, after, before.issued[|before.delivered| - 1].room);
    }
  }

  lemma StepMissedOk(s: Sys, a: Action, before: Session, after: Session, c: ConnectionId)
    requires SessionOk(before) && SessionOk(after) && SessionStep(s, a, before, after, c)
    requires forall room | room !in s.registry :: Delivered(before, room) == []
    requires MissedOk(before)
    ensures MissedOk(after)
  {
    if Enqueues(s, a) && a.c == c {
      assert after.delivered[|before.delivered|];
    } else if Active(before) && after == Finish(before, before.pc.dispatch, false) {
      UnheardMissedOk(before);
    } else {
      SameMissedOk(before, after);
    }
  }

  lemma FollowsAllMissedOk(s: Sys, a: Action, t: Sys)
    requires SessionsOk(s) && NothingElsewhere(s) && AllMissedOk(s) && Follows(s, a, t) && SessionsOk(t)
    ensures AllMissedOk(t)
  {
    forall c | c in t.sessions
      ensures MissedOk(t.sessions[c])
    {
      if c in s.sessions {
        StepMissedOk(s, a, s.sessions[c], t.sessions[c], c);
      }
    }
  }

  /** The histories of sessions and queues fit each other. */
  ghost predicate HistoriesOk(s: Sys) {
    SessionsOk(s) && OriginsOk(s) && OrderOk(s) && AllMissedOk(s)
  }

  ghost predicate ServerOk(s: Sys) {
    RegistryInv(s) && TasksOk(s) && HistoriesOk(s) && NothingElsewhere(s)
  }

  lemma FollowsServerOk(s: Sys, a: Action, t: Sys)
    requires ServerOk(s) && Follows(s, a, t) && RegistryInv(t) && TasksOk(t)
    ensures ServerOk(t)
  {
    FollowsSessionsOk(s, a, t);
    FollowsOriginsOk(s, a, t);
    FollowsOrderOk(s, a, t);
    FollowsNothingElsewhere(s, a, t);
    FollowsAllMissedOk(s, a, t);
  }

  /** Everything the server keeps, it keeps under every interleaving. */
  lemma {:induction false} ExecServerOk(trace: seq<Action>)
    ensures ServerOk(Exec(trace))
  {
    if trace != [] {
      var last := |trace| - 1;
      var s, a := Exec(trace[..last]), trace[last];
      ExecServerOk(trace[..last]);
      NextFollows(s, a);
      ExecRegistryInv(trace);
      RoomsRunSequentially(trace);
      FollowsServerOk(s, a, Exec(trace));
    }
  }

  /**
   * Under every interleaving a connection's commands in a room's queue are
   * exactly those it issued to that room and that found it, in its own order.
   */
  lemma OwnOrderKept(trace: seq<Action>, c: ConnectionId, q: QueueId)
    requires c in Exec(trace).sessions && q < |Exec(trace).tasks|
    ensures |Exec(trace).sessions[c].delivered| <= |Exec(trace).sessions[c].issued|
    ensures ByOrigin(Exec(trace).tasks[q].enqueued, c)
         == Delivered(Exec(trace).sessions[c], Exec(trace).tasks[q].roomId)
  {
    ExecServerOk(trace);
  }
}
