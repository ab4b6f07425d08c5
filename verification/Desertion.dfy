// When exactly a room is deserted, and a run of the server that ends quiet with
// a seat still connected (src/room.rs:446-463, 581-592, 729-744,
// src/ws.rs:102-107, 131).
module Desertion {
  import opened Wrappers
  import opened Protocol
  import opened RoomSpec
  import opened RoomCore
  import opened Connections
  import opened Server
  import opened Interleavings
  import opened Quiescence

  // ---------- who is still held ----------

  /** A granted binding for the user. */
  predicate Grants(core: Core, command: Command, user: UserId) {
    Binds(command) && Accepted(core, command) && BoundUser(command) == user
  }

  /** A disconnect of a connection that is registered for the user. */
  predicate Drops(core: Core, command: Command, user: UserId) {
    && command.Disconnect?
    && command.connectionId in core.connectionToUser
    && core.connectionToUser[command.connectionId] == user
  }

  predicate ConnectedUser(core: Core, user: UserId) {
    && user in core.userToSeat
    && core.userToSeat[user] in core.playersBySeat
    && core.playersBySeat[core.userToSeat[user]].connected
  }

  lemma EnrollConnected(core: Core, connection: ConnectionHandle, join: JoinRequest, seat: Seat, user: UserId)
    requires Linked(core) && seat !in core.playersBySeat && join.userId !in core.userToSeat
    ensures ConnectedUser(Enroll(core, connection, join, seat), user)
       <==> user == join.userId || ConnectedUser(core, user)
  {
  }

  lemma RebindConnected(core: Core, seat: Seat, connection: ConnectionHandle, user: UserId)
    requires Linked(core) && seat in core.playersBySeat
    ensures ConnectedUser(Rebind(core, seat, connection), user)
       <==> user == core.playersBySeat[seat].userId || ConnectedUser(core, user)
  {
  }

  lemma DisconnectConnected(core: Core, c: ConnectionId, user: UserId)
    requires Linked(core)
    ensures ConnectedUser(NextCore(core, Disconnect(c)), user)
       <==> ConnectedUser(core, user) && !Drops(core, Disconnect(c), user)
  {
  }

  lemma OthersKeepConnected(core: Core, command: Command, user: UserId)
    requires command.Ready? || command.PlayerAction?
    ensures ConnectedUser(NextCore(core, command), user) <==> ConnectedUser(core, user)
  {
  }

  /** One command connects exactly the user it grants a binding and disconnects exactly the one it drops. */
  lemma NextConnected(core: Core, command: Command, user: UserId)
    requires Linked(core)
    ensures ConnectedUser(NextCore(core, command), user)
       <==> Grants(core, command, user) || (ConnectedUser(core, user) && !Drops(core, command, user))
  {
    match command {
      case Join(_, connection, join) =>
        if Accepted(core, command) {
          EnrollConnected(core, connection, join, NextOpenSeat(core.playersBySeat).value, user);
        }
      case Ready(_, _, _) => OthersKeepConnected(core, command, user);
      case ResumeSession(_, connection, resume) =>
        if Accepted(core, command) {
          RebindConnected(core, core.userToSeat[resume.userId], connection, user);
        }
      case PlayerAction(_, _, _) => OthersKeepConnected(core, command, user);
      case Disconnect(c) => DisconnectConnected(core, c, user);
    }
  }

  ghost predicate GrantedAt(roomId: RoomId, commands: seq<Command>, user: UserId, i: nat)
    requires i < |commands|
  {
    Grants(CoreAfter(roomId, commands[..i]), commands[i], user)
  }

  ghost predicate DroppedAt(roomId: RoomId, commands: seq<Command>, user: UserId, i: nat)
    requires i < |commands|
  {
    Drops(CoreAfter(roomId, commands[..i]), commands[i], user)
  }

  /** Granted at i, and not dropped since. */
  ghost predicate HeldSince(roomId: RoomId, commands: seq<Command>, user: UserId, i: nat) {
    && i < |commands| && GrantedAt(roomId, commands, user, i)
    && forall j: nat | i < j < |commands| :: !DroppedAt(roomId, commands, user, j)
  }

  /** Some granted binding of the user has not been followed by a disconnect of a connection registered for the user. */
  ghost predicate Held(roomId: RoomId, commands: seq<Command>, user: UserId) {
    exists i: nat :: HeldSince(roomId, commands, user, i)
  }

  lemma SameHistory(roomId: RoomId, commands: seq<Command>, command: Command, user: UserId, i: nat)
    requires i < |commands|
    ensures GrantedAt(roomId, commands + [command], user, i) == GrantedAt(roomId, commands, user, i)
    ensures DroppedAt(roomId, commands + [command], user, i) == DroppedAt(roomId, commands, user, i)
  {
    assert (commands + [command])[..i] == commands[..i];
  }

  lemma LastOfHistory(roomId: RoomId, commands: seq<Command>, command: Command, user: UserId)
    ensures GrantedAt(roomId, commands + [command], user, |commands|)
         == Grants(CoreAfter(roomId, commands), command, user)
    ensures DroppedAt(roomId, commands + [command], user, |commands|)
         == Drops(CoreAfter(roomId, commands), command, user)
  {
    assert (commands + [command])[..|commands|] == commands;
  }

  lemma HeldSinceOne(roomId: RoomId, commands: seq<Command>, command: Command, user: UserId, i: nat)
    requires i < |commands|
    ensures HeldSince(roomId, commands + [command], user, i)
       <==> HeldSince(roomId, commands, user, i) && !Drops(CoreAfter(roomId, commands), command, user)
  {
    LastOfHistory(roomId, commands, command, user);
    forall j: nat | j < |commands|
      ensures GrantedAt(roomId, commands + [command], user, j) == GrantedAt(roomId, commands, user, j)
      ensures DroppedAt(roomId, commands + [command], user, j) == DroppedAt(roomId, commands, user, j)
    {
      SameHistory(roomId, commands, command, user, j);
    }
  }

  lemma HeldOne(roomId: RoomId, commands: seq<Command>, command: Command, user: UserId)
    ensures Held(roomId, commands + [command], user)
       <==> || Grants(CoreAfter(roomId, commands), command, user)
            || (Held(roomId, commands, user) && !Drops(CoreAfter(roomId, commands), command, user))
  {
    LastOfHistory(roomId, commands, command, user);
    if Grants(CoreAfter(roomId, commands), command, user) {
      assert HeldSince(roomId, commands + [command], user, |commands|);
    }
    forall i: nat | i < |commands|
      ensures HeldSince(roomId, commands + [command], user, i)
         <==> HeldSince(roomId, commands, user, i) && !Drops(CoreAfter(roomId, commands), command, user)
    {
      HeldSinceOne(roomId, commands, command, user, i);
    }
  }

  /** A user is connected if and only if still held, after every command list. */
  lemma {:induction false} ConnectedIffHeld(roomId: RoomId, commands: seq<Command>, user: UserId)
    ensures ConnectedUser(CoreAfter(roomId, commands), user) <==> Held(roomId, commands, user)
  {
    if commands != [] {
      var before, command := commands[..|commands| - 1], commands[|commands| - 1];
      ConnectedIffHeld(roomId, before, user);
      AlwaysLinked(roomId, before);
      NextConnected(CoreAfter(roomId, before), command, user);
      HeldOne(roomId, before, command, user);
      assert before + [command] == commands;
    }
  }

  lemma AlwaysLinked(roomId: RoomId, commands: seq<Command>)
    ensures Linked(CoreAfter(roomId, commands))
  {
    CoreAlwaysSound(roomId, commands);
  }

  /** A room has a connected user unless it is deserted. */
  lemma DesertedCore(core: Core)
    requires Linked(core)
    ensures Deserted(core) <==> forall user :: !ConnectedUser(core, user)
  {
    if !Deserted(core) {
      if c :| c in core.connectionToUser {
        assert ConnectedUser(core, core.connectionToUser[c]);
      } else {
        var seat :| seat in core.playersBySeat && core.playersBySeat[seat].connected;
        assert ConnectedUser(core, core.playersBySeat[seat].userId);
      }
    }
  }

  /** A room is deserted if and only if no user is still held, after every command list. */
  lemma DesertedIff(roomId: RoomId, commands: seq<Command>)
    ensures Deserted(CoreAfter(roomId, commands)) <==> forall user :: !Held(roomId, commands, user)
  {
    AlwaysLinked(roomId, commands);
    DesertedCore(CoreAfter(roomId, commands));
    forall user
      ensures ConnectedUser(CoreAfter(roomId, commands), user) <==> Held(roomId, commands, user)
    {
      ConnectedIffHeld(roomId, commands, user);
    }
  }

  /**
   * Once the server is quiet, a room is deserted if and only if no user is held
   * in the history of its queue, with no assumption on the sessions.
   */
  lemma QuietRoomDesertedIff(trace: seq<Action>, q: QueueId)
    requires Quiet(Exec(trace)) && q < |Exec(trace).tasks|
    ensures var task := Exec(trace).tasks[q];
            Deserted(task.room.core) <==> forall user :: !Held(task.roomId, task.enqueued, user)
  {
    RoomsRunSequentially(trace);
    var task := Exec(trace).tasks[q];
    assert TaskOk(task) && Commands(task.handled) == task.enqueued;
    RunCore(task.roomId, task.handled);
    DesertedIff(task.roomId, task.enqueued);
  }

  // ---------- a session of two rooms ----------

  /** The state after some actions. */
  function RunOn(s: Sys, actions: seq<Action>): Sys
    decreases |actions|
  {
    if actions == [] then s else RunOn(Next(s, actions[0]), actions[1..])
  }

  lemma ExecOne(trace: seq<Action>, a: Action)
    ensures Exec(trace + [a]) == Next(Exec(trace), a)
  {
    assert (trace + [a])[..|trace|] == trace;
  }

  lemma ExecShift(trace: seq<Action>, a: Action, rest: seq<Action>, s: Sys)
    requires Exec(trace + [a] + rest) == s
    ensures Exec(trace + ([a] + rest)) == s
  {
    assert trace + [a] + rest == trace + ([a] + rest);
  }

  lemma {:induction false} ExecRunOn(trace: seq<Action>, actions: seq<Action>)
    ensures Exec(trace + actions) == RunOn(Exec(trace), actions)
    decreases |actions|
  {
    if actions == [] {
      assert trace + actions == trace;
    } else {
      var a, rest := actions[0], actions[1..];
      ExecOne(trace, a);
      ExecRunOn(trace + [a], rest);
      ExecShift(trace, a, rest, RunOn(Next(Exec(trace), a), rest));
      assert actions == [a] + rest;
    }
  }

  lemma {:induction false} RunOnConcat(s: Sys, first: seq<Action>, second: seq<Action>)
    ensures RunOn(s, first + second) == RunOn(RunOn(s, first), second)
    decreases |first|
  {
    if first == [] {
      assert first + second == second;
    } else {
      assert (first + second)[1..] == first[1..] + second;
      RunOnConcat(Next(s, first[0]), first[1..], second);
    }
  }

  lemma RunOnOne(s: Sys, a: Action)
    ensures RunOn(s, [a]) == Next(s, a)
  {
    assert [a][1..] == [];
  }

  lemma RunOnTwo(s: Sys, a: Action, b: Action)
    ensures RunOn(s, [a, b]) == Next(Next(s, a), b)
  {
    assert [a, b][1..] == [b];
    RunOnOne(Next(s, a), b);
  }

  /** The lock is free, and the session has nothing under way. */
  ghost predicate Free(s: Sys, c: ConnectionId) {
    c in s.sessions && s.sessions[c].pc.Idle? && s.readers == {} && s.writer.None?
  }

  function JoinDispatch(session: Session, join: JoinRequest): Dispatch {
    Dispatch(join.roomId, Join("", session.handle, join))
  }

  /** A session that has begun a dispatch, at a given point of it. */
  function Under(session: Session, d: Dispatch, pc: Pc): Session {
    Begin(session.(currentRoom := Some(d.room)), d).(pc := pc)
  }

  function LookUp(c: ConnectionId): seq<Action> { [LockRead(c), Lookup(c)] }

  lemma LooksUp(s: Sys, c: ConnectionId, session: Session, d: Dispatch)
    requires c in s.sessions && s.readers == {} && s.writer.None?
    ensures var t := Put(s, c, Under(session, d, Looking(d)));
            RunOn(t, LookUp(c))
            == Put(s, c, if d.room in s.registry then Under(session, d, Enqueueing(d, s.registry[d.room]))
                         else if d.command.Join? then Under(session, d, AwaitingWrite(d))
                         else Finish(Under(session, d, ReadLocked(d)), d, false))
  {
    var t := Put(s, c, Under(session, d, Looking(d)));
    RunOnTwo(t, LockRead(c), Lookup(c));
    assert {c} - {c} == {};
  }

  function Creates(c: ConnectionId): seq<Action> { [LockWrite(c), Recheck(c)] + [Create(c), Enqueue(c)] }

  /** The server after a session has created a room and put its command into the new queue. */
  function Created(s: Sys, c: ConnectionId, session: Session, d: Dispatch): Sys {
    s.(registry := s.registry[d.room := |s.tasks|],
       tasks := s.tasks + [Push(NewTask(d.room), d.command)],
       sessions := s.sessions[c := Finish(Under(session, d, Enqueueing(d, |s.tasks|)), d, true)])
  }

  lemma CreatesRoom(s: Sys, c: ConnectionId, session: Session, d: Dispatch)
    requires c in s.sessions && s.readers == {} && s.writer.None? && d.room !in s.registry
    ensures RunOn(Put(s, c, Under(session, d, AwaitingWrite(d))), Creates(c)) == Created(s, c, session, d)
  {
    var t := Put(s, c, Under(session, d, AwaitingWrite(d)));
    var u := Put(s, c, Under(session, d, Creating(d))).(writer := Some(c));
    RunOnConcat(t, [LockWrite(c), Recheck(c)], [Create(c), Enqueue(c)]);
    RunOnTwo(t, LockWrite(c), Recheck(c));
    assert RunOn(t, [LockWrite(c), Recheck(c)]) == u;
    RunOnTwo(u, Create(c), Enqueue(c));
    CreatesQueue(s, c, session, d);
  }

  lemma CreatesQueue(s: Sys, c: ConnectionId, session: Session, d: Dispatch)
    requires c in s.sessions && s.readers == {} && s.writer.None? && d.room !in s.registry
    ensures var u := Put(s, c, Under(session, d, Creating(d))).(writer := Some(c));
            Next(Next(u, Create(c)), Enqueue(c)) == Created(s, c, session, d)
  {
    var u := Put(s, c, Under(session, d, Creating(d))).(writer := Some(c));
    var v := Put(s, c, Under(session, d, Enqueueing(d, |s.tasks|))).(
      tasks := s.tasks + [NewTask(d.room)], registry := s.registry[d.room := |s.tasks|]);
    assert Next(u, Create(c)) == v;
    assert v.tasks[|s.tasks| := Push(NewTask(d.room), d.command)] == s.tasks + [Push(NewTask(d.room), d.command)];
  }

  function JoinNew(c: ConnectionId, join: JoinRequest): seq<Action> {
    [ReceiveFrame(c, JoinFrame("", join))] + LookUp(c) + Creates(c)
  }

  /** A free session that joins a room nobody has joined creates it. */
  lemma JoinsNewRoom(s: Sys, c: ConnectionId, join: JoinRequest)
    requires Free(s, c) && join.roomId !in s.registry
    ensures RunOn(s, JoinNew(c, join)) == Created(s, c, s.sessions[c], JoinDispatch(s.sessions[c], join))
  {
    var session, first := s.sessions[c], [ReceiveFrame(c, JoinFrame("", join))];
    var d := JoinDispatch(session, join);
    RunOnConcat(s, first + LookUp(c), Creates(c));
    RunOnConcat(s, first, LookUp(c));
    RunOnOne(s, ReceiveFrame(c, JoinFrame("", join)));
    LooksUp(s, c, session, d);
    CreatesRoom(s, c, session, d);
  }

  function Leave(c: ConnectionId): seq<Action> { [CloseSocket(c)] + LookUp(c) + [Enqueue(c)] }

  /** The server after a session has put its dispatch into a room's queue. */
  function InQueue(s: Sys, c: ConnectionId, session: Session, d: Dispatch, q: QueueId): Sys
    requires q < |s.tasks|
  {
    s.(tasks := s.tasks[q := Push(s.tasks[q], d.command)],
       sessions := s.sessions[c := Finish(Under(session, d, Enqueueing(d, q)), d, true)])
  }

  lemma PutsInQueue(s: Sys, c: ConnectionId, session: Session, d: Dispatch, q: QueueId)
    requires c in s.sessions && q < |s.tasks| && |s.tasks[q].queue| < ROOM_COMMAND_BUFFER
    ensures Next(Put(s, c, Under(session, d, Enqueueing(d, q))), Enqueue(c)) == InQueue(s, c, session, d, q)
  {
  }

  lemma ClosesSocket(s: Sys, c: ConnectionId, room: RoomId)
    requires c in s.sessions && s.sessions[c].pc.Idle? && s.sessions[c].currentRoom == Some(room)
    ensures var d := Dispatch(room, Disconnect(s.sessions[c].handle.connectionId));
            Next(s, CloseSocket(c)) == Put(s, c, Under(s.sessions[c], d, Looking(d)))
  {
  }

  lemma LeavesRoom(s: Sys, c: ConnectionId, room: RoomId, q: QueueId)
    requires Free(s, c) && s.sessions[c].currentRoom == Some(room)
    requires room in s.registry && s.registry[room] == q && q < |s.tasks| && |s.tasks[q].queue| < ROOM_COMMAND_BUFFER
    ensures RunOn(s, Leave(c))
         == InQueue(s, c, s.sessions[c], Dispatch(room, Disconnect(s.sessions[c].handle.connectionId)), q)
  {
    var session := s.sessions[c];
    var d := Dispatch(room, Disconnect(session.handle.connectionId));
    RunOnConcat(s, [CloseSocket(c)] + LookUp(c), [Enqueue(c)]);
    RunOnConcat(s, [CloseSocket(c)], LookUp(c));
    RunOnOne(s, CloseSocket(c));
    ClosesSocket(s, c, room);
    LooksUp(s, c, session, d);
    RunOnOne(Put(s, c, Under(session, d, Enqueueing(d, q))), Enqueue(c));
    PutsInQueue(s, c, session, d, q);
  }

  /** A plain command is handled as soon as it is taken. */
  lemma TakesPlain(s: Sys, q: QueueId, inputs: Inputs)
    requires q < |s.tasks| && s.tasks[q].awaiting.None? && s.tasks[q].queue != []
    requires !s.tasks[q].queue[0].PlayerAction?
    ensures Next(s, Dequeue(q, inputs))
         == s.(tasks := s.tasks[q := Handle(s.tasks[q].(queue := s.tasks[q].queue[1..]),
                                            Entry(s.tasks[q].queue[0], inputs))])
  {
  }

  /** Handling all that two rooms have queued: a join in one, a join and a disconnect in the other. */
  lemma DrainsTwo(s: Sys, inputs: Inputs)
    requires |s.tasks| == 2 && s.tasks[0].awaiting.None? && s.tasks[1].awaiting.None?
    requires |s.tasks[0].queue| == 1 && s.tasks[0].queue[0].Join?
    requires |s.tasks[1].queue| == 2 && s.tasks[1].queue[0].Join? && s.tasks[1].queue[1].Disconnect?
    ensures var t := RunOn(s, [Dequeue(0, inputs)] + [Dequeue(1, inputs), Dequeue(1, inputs)]);
            && t.sessions == s.sessions && |t.tasks| == 2
            && (forall q: nat | q < 2 ::
                  t.tasks[q].queue == [] && t.tasks[q].awaiting.None? && t.tasks[q].roomId == s.tasks[q].roomId)
            && t.tasks[0].room == Step(s.tasks[0].room, Entry(s.tasks[0].queue[0], inputs))
  {
    RunOnConcat(s, [Dequeue(0, inputs)], [Dequeue(1, inputs), Dequeue(1, inputs)]);
    RunOnOne(s, Dequeue(0, inputs));
    TakesPlain(s, 0, inputs);
    var t := Next(s, Dequeue(0, inputs));
    RunOnTwo(t, Dequeue(1, inputs), Dequeue(1, inputs));
    TakesPlain(t, 1, inputs);
    TakesPlain(Next(t, Dequeue(1, inputs)), 1, inputs);
  }

  /** The first to join a room sits down connected. */
  lemma FirstJoiner(room: RoomId, entry: Entry)
    requires entry.command.Join?
    ensures ConnectedUser(Step(NewRoom(room), entry).core, entry.command.join.userId)
    ensures !Deserted(Step(NewRoom(room), entry).core)
  {
    StepCore(NewRoom(room), entry);
  }

  function TwoRooms(c: ConnectionId, a: JoinRequest, b: JoinRequest): seq<Action> {
    [Connect] + JoinNew(c, a) + JoinNew(c, b) + Leave(c)
  }

  /** The server with one session, at a given point of its history. */
  function Alone(c: ConnectionId, registry: map<RoomId, QueueId>, tasks: seq<Task>, room: Option<RoomId>, pc: Pc,
                 issued: seq<Dispatch>, delivered: seq<bool>): Sys {
    Sys(registry, {}, None, tasks, map[c := Session(ConnectionHandle(c, 1), room, pc, issued, delivered)], 2)
  }

  function JoinOf(c: ConnectionId, join: JoinRequest): Dispatch {
    Dispatch(join.roomId, Join("", ConnectionHandle(c, 1), join))
  }

  function Connected(c: ConnectionId): Sys {
    Alone(c, map[], [], None, Idle, [], [])
  }

  function InOne(c: ConnectionId, a: JoinRequest): Sys {
    Alone(c, map[a.roomId := 0], [Push(NewTask(a.roomId), JoinOf(c, a).command)], Some(a.roomId), Idle, [JoinOf(c, a)],
          [true])
  }

  function InTwo(c: ConnectionId, a: JoinRequest, b: JoinRequest): Sys {
    Alone(c, map[a.roomId := 0, b.roomId := 1],
          [Push(NewTask(a.roomId), JoinOf(c, a).command), Push(NewTask(b.roomId), JoinOf(c, b).command)],
          Some(b.roomId), Idle, [JoinOf(c, a), JoinOf(c, b)], [true, true])
  }

  /** Both rooms have its join, the second its disconnect too. */
  function Gone(c: ConnectionId, a: JoinRequest, b: JoinRequest): Sys {
    Alone(c, map[a.roomId := 0, b.roomId := 1],
          [Push(NewTask(a.roomId), JoinOf(c, a).command),
           Push(Push(NewTask(b.roomId), JoinOf(c, b).command), Disconnect(c))],
          Some(b.roomId), Closed, [JoinOf(c, a), JoinOf(c, b), Dispatch(b.roomId, Disconnect(c))], [true, true, true])
  }

  lemma SameServer(s: Sys, t: Sys, c: ConnectionId)
    requires s.readers == t.readers && s.writer == t.writer && s.nextConnection == t.nextConnection
    requires s.registry.Keys == t.registry.Keys && forall r | r in s.registry :: s.registry[r] == t.registry[r]
    requires |s.tasks| == |t.tasks| && forall q | 0 <= q < |s.tasks| :: s.tasks[q] == t.tasks[q]
    requires s.sessions.Keys == t.sessions.Keys == {c} && s.sessions[c].issued == t.sessions[c].issued
    requires s.sessions[c].delivered == t.sessions[c].delivered
    requires s.sessions[c] == t.sessions[c].(issued := s.sessions[c].issued, delivered := s.sessions[c].delivered)
    ensures s == t
  {
  }

  lemma JoinsOne(c: ConnectionId, a: JoinRequest)
    ensures RunOn(Connected(c), JoinNew(c, a)) == InOne(c, a)
  {
    JoinsNewRoom(Connected(c), c, a);
    SameServer(Created(Connected(c), c, Connected(c).sessions[c], JoinOf(c, a)), InOne(c, a), c);
  }

  lemma JoinsTwo(c: ConnectionId, a: JoinRequest, b: JoinRequest)
    requires a.roomId != b.roomId
    ensures RunOn(InOne(c, a), JoinNew(c, b)) == InTwo(c, a, b)
  {
    JoinsNewRoom(InOne(c, a), c, b);
    SameServer(Created(InOne(c, a), c, InOne(c, a).sessions[c], JoinOf(c, b)), InTwo(c, a, b), c);
  }

  lemma LeavesTwo(c: ConnectionId, a: JoinRequest, b: JoinRequest)
    requires a.roomId != b.roomId
    ensures RunOn(InTwo(c, a, b), Leave(c)) == Gone(c, a, b)
  {
    LeavesRoom(InTwo(c, a, b), c, b.roomId, 1);
    SameServer(InQueue(InTwo(c, a, b), c, InTwo(c, a, b).sessions[c], Dispatch(b.roomId, Disconnect(c)), 1),
               Gone(c, a, b), c);
  }

  /** A connection joins two rooms and closes. */
  lemma JoinsTwoAndLeaves(c: ConnectionId, a: JoinRequest, b: JoinRequest)
    requires a.roomId != b.roomId && c == ConnectionName(1)
    ensures Exec(TwoRooms(c, a, b)) == Gone(c, a, b)
  {
    JoinsOne(c, a);
    JoinsTwo(c, a, b);
    LeavesTwo(c, a, b);
    RunOnOne(Start, Connect);
    assert Next(Start, Connect) == Connected(c);
    RunOnConcat(Start, [Connect], JoinNew(c, a));
    RunOnConcat(Start, [Connect] + JoinNew(c, a), JoinNew(c, b));
    RunOnConcat(Start, [Connect] + JoinNew(c, a) + JoinNew(c, b), Leave(c));
    ExecRunOn([], TwoRooms(c, a, b));
    assert [] + TwoRooms(c, a, b) == TwoRooms(c, a, b);
  }

  lemma SameUserTwice(session: Session, a: Command, b: Command, room: RoomId, other: RoomId, c: ConnectionId)
    requires session.issued == [Dispatch(room, a), Dispatch(other, b), Dispatch(other, Disconnect(c))]
    requires Binds(a) && Binds(b) && BoundUser(a) == BoundUser(b)
    ensures OneUser(session)
  {
  }

  lemma HauntedAfter(c: ConnectionId, a: JoinRequest, b: JoinRequest, inputs: Inputs)
    requires a.userId == b.userId
    ensures var t := RunOn(Gone(c, a, b), [Dequeue(0, inputs)] + [Dequeue(1, inputs), Dequeue(1, inputs)]);
            && Quiet(t) && (forall d | d in t.sessions :: OneUser(t.sessions[d]))
            && |t.tasks| == 2 && t.tasks[0].roomId == a.roomId
            && ConnectedUser(t.tasks[0].room.core, a.userId) && !Deserted(t.tasks[0].room.core)
  {
    var s := Gone(c, a, b);
    DrainsTwo(s, inputs);
    FirstJoiner(a.roomId, Entry(s.tasks[0].queue[0], inputs));
    SameUserTwice(s.sessions[c], JoinOf(c, a).command, JoinOf(c, b).command, a.roomId, b.roomId, c);
  }

  /**
   * A session of two rooms leaves the first one haunted: it joins one, joins
   * another and closes. The server is quiet, nobody spoke for two users, and the
   * first room's seat is still connected.
   */
  lemma TwoRoomsLinger(a: JoinRequest, b: JoinRequest) returns (trace: seq<Action>)
    requires a.roomId != b.roomId && a.userId == b.userId
    ensures Quiet(Exec(trace)) && forall c | c in Exec(trace).sessions :: OneUser(Exec(trace).sessions[c])
    ensures |Exec(trace).tasks| == 2 && Exec(trace).tasks[0].roomId == a.roomId
    ensures ConnectedUser(Exec(trace).tasks[0].room.core, a.userId) && !Deserted(Exec(trace).tasks[0].room.core)
  {
    var c, inputs := ConnectionName(1), Inputs(_ => 0, CallFailed);
    var before, drain := TwoRooms(c, a, b), [Dequeue(0, inputs)] + [Dequeue(1, inputs), Dequeue(1, inputs)];
    JoinsTwoAndLeaves(c, a, b);
    HauntedAfter(c, a, b, inputs);
    trace := before + drain;
    ExecRunOn(before, drain);
  }
}
