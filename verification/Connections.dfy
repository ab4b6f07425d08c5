// Connections, the users they speak for and the slots they feed, over whole
// runs (src/room.rs:446-463, 569-592, 729-744, 772-775).
module Connections {
  import opened Wrappers
  import opened Protocol
  import opened RoomSpec
  import opened RoomCore

  /** Commands that ask to bind a connection to a user. */
  predicate Binds(command: Command) {
    command.Join? || command.ResumeSession?
  }

  function BoundUser(command: Command): UserId
    requires Binds(command)
  {
    if command.Join? then command.join.userId else command.resume.userId
  }

  /** True when the room grants the binding asked for. */
  predicate Accepted(core: Core, command: Command) {
    match command
    case Join(_, _, join) => join.userId !in core.userToSeat && NextOpenSeat(core.playersBySeat).Some?
    case ResumeSession(_, _, resume) => ResumeRefusal(core, resume).None?
    case _ => false
  }

  // ---------- a slot's connection comes with its own channel ----------

  ghost predicate BoundBy(commands: seq<Command>, connection: ConnectionHandle, user: UserId) {
    exists i :: 0 <= i < |commands| && Binds(commands[i])
                && commands[i].connection == connection && BoundUser(commands[i]) == user
  }

  /** Each slot's connection and channel are a handle that asked for its user. */
  ghost predicate Traced(core: Core, commands: seq<Command>) {
    forall s | s in core.playersBySeat
               && core.playersBySeat[s].connectionId.Some? && core.playersBySeat[s].outboundTx.Some? ::
      BoundBy(commands,
              ConnectionHandle(core.playersBySeat[s].connectionId.value, core.playersBySeat[s].outboundTx.value),
              core.playersBySeat[s].userId)
  }

  lemma BoundByGrows(commands: seq<Command>, command: Command, connection: ConnectionHandle, user: UserId)
    ensures BoundBy(commands, connection, user) ==> BoundBy(commands + [command], connection, user)
    ensures Binds(command) && command.connection == connection && BoundUser(command) == user ==>
              BoundBy(commands + [command], connection, user)
  {
    var now := commands + [command];
    if BoundBy(commands, connection, user) {
      var i :| 0 <= i < |commands| && Binds(commands[i])
               && commands[i].connection == connection && BoundUser(commands[i]) == user;
      assert now[i] == commands[i];
    }
    assert now[|commands|] == command;
  }

  /** A command leaves a slot's wiring alone, clears it, or sets it to the handle it carries. */
  lemma WiringOf(core: Core, command: Command, s: Seat)
    requires UsersSeated(core) && s in NextCore(core, command).playersBySeat
    ensures var slot := NextCore(core, command).playersBySeat[s];
            || (slot.connectionId.None? && slot.outboundTx.None?)
            || (Binds(command) && slot.connectionId == Some(command.connection.connectionId)
                && slot.outboundTx == Some(command.connection.outboundTx) && slot.userId == BoundUser(command))
            || (s in core.playersBySeat && slot.connectionId == core.playersBySeat[s].connectionId
                && slot.outboundTx == core.playersBySeat[s].outboundTx && slot.userId == core.playersBySeat[s].userId)
  {
  }

  lemma NextTraced(core: Core, commands: seq<Command>, command: Command)
    requires UsersSeated(core) && Traced(core, commands)
    ensures Traced(NextCore(core, command), commands + [command])
  {
    var next := NextCore(core, command);
    forall s | s in next.playersBySeat
               && next.playersBySeat[s].connectionId.Some? && next.playersBySeat[s].outboundTx.Some?
      ensures BoundBy(commands + [command],
                      ConnectionHandle(next.playersBySeat[s].connectionId.value, next.playersBySeat[s].outboundTx.value),
                      next.playersBySeat[s].userId)
    {
      WiringOf(core, command, s);
      BoundByGrows(commands, command,
                   ConnectionHandle(next.playersBySeat[s].connectionId.value, next.playersBySeat[s].outboundTx.value),
                   next.playersBySeat[s].userId);
    }
  }

  lemma AlwaysUsersSeated(roomId: RoomId, commands: seq<Command>)
    ensures UsersSeated(CoreAfter(roomId, commands))
  {
    CoreAlwaysSound(roomId, commands);
  }

  /**
   * The binding invariant, with no assumption on the clients: a slot is fed by
   * a connection and a channel that came together in one handle, in a request
   * for that very user.
   */
  lemma {:induction false} SlotsTraced(roomId: RoomId, commands: seq<Command>)
    ensures Traced(CoreAfter(roomId, commands), commands)
  {
    if commands != [] {
      var before, command := commands[..|commands| - 1], commands[|commands| - 1];
      SlotsTraced(roomId, before);
      AlwaysUsersSeated(roomId, before);
      NextTraced(CoreAfter(roomId, before), before, command);
      assert before + [command] == commands;
    }
  }

  // ---------- exact binding ----------

  /** Every slot that has a connection is the one its connection is registered for. */
  ghost predicate Exact(core: Core) {
    forall s | s in core.playersBySeat && core.playersBySeat[s].connectionId.Some? ::
      && core.playersBySeat[s].connectionId.value in core.connectionToUser
      && core.connectionToUser[core.playersBySeat[s].connectionId.value] == core.playersBySeat[s].userId
  }

  /** A granted binding of a connection that is registered for somebody else. */
  predicate Steals(core: Core, command: Command) {
    && Accepted(core, command)
    && command.connection.connectionId in core.connectionToUser
    && core.connectionToUser[command.connection.connectionId] != BoundUser(command)
  }

  lemma StealBreaks(core: Core, command: Command)
    requires Linked(core) && Steals(core, command)
    ensures !Exact(NextCore(core, command))
  {
    var c := command.connection.connectionId;
    var victim := core.userToSeat[core.connectionToUser[c]];
    var next := NextCore(core, command);
    assert next.playersBySeat[victim].connectionId == Some(c);
    assert next.connectionToUser[c] == BoundUser(command);
  }

  lemma EnrollExact(core: Core, connection: ConnectionHandle, join: JoinRequest, seat: Seat)
    requires Exact(core) && connection.connectionId !in core.connectionToUser
    ensures Exact(Enroll(core, connection, join, seat))
  {
  }

  lemma RebindExact(core: Core, seat: Seat, connection: ConnectionHandle)
    requires SeatsNamed(core) && Exact(core) && seat in core.playersBySeat
    requires connection.connectionId in core.connectionToUser ==>
               core.connectionToUser[connection.connectionId] == core.playersBySeat[seat].userId
    ensures Exact(Rebind(core, seat, connection))
  {
  }

  lemma DisconnectExact(core: Core, c: ConnectionId)
    requires Linked(core) && Exact(core)
    ensures Exact(NextCore(core, Disconnect(c)))
  {
    var next := NextCore(core, Disconnect(c));
    forall s | s in next.playersBySeat && next.playersBySeat[s].connectionId.Some?
      ensures next.playersBySeat[s].connectionId.value in next.connectionToUser
    {
      assert next.playersBySeat[s] == core.playersBySeat[s];
    }
  }

  /**
   * One command keeps exact binding if and only if it is not a granted binding
   * of a connection registered for another user.
   */
  lemma ExactStepIff(core: Core, command: Command)
    requires Linked(core) && Exact(core)
    ensures Exact(NextCore(core, command)) <==> !Steals(core, command)
  {
    if Steals(core, command) {
      StealBreaks(core, command);
    } else {
      match command {
        case Join(_, connection, join) =>
          if Accepted(core, command) {
            EnrollExact(core, connection, join, NextOpenSeat(core.playersBySeat).value);
          }
        case Ready(_, _, _) =>
        case ResumeSession(_, connection, resume) =>
          if Accepted(core, command) {
            RebindExact(core, core.userToSeat[resume.userId], connection);
          }
        case PlayerAction(_, _, _) =>
        case Disconnect(c) => DisconnectExact(core, c);
      }
    }
  }

  /** Binding is exact after every command of the run. */
  ghost predicate ExactThroughout(roomId: RoomId, commands: seq<Command>) {
    && Exact(CoreAfter(roomId, commands))
    && (commands != [] ==> ExactThroughout(roomId, commands[..|commands| - 1]))
  }

  /** No command of the run steals where it is handled. */
  ghost predicate NeverSteals(roomId: RoomId, commands: seq<Command>) {
    commands != [] ==>
      && NeverSteals(roomId, commands[..|commands| - 1])
      && !Steals(CoreAfter(roomId, commands[..|commands| - 1]), commands[|commands| - 1])
  }

  lemma StepFromLinked(roomId: RoomId, commands: seq<Command>, command: Command)
    requires Exact(CoreAfter(roomId, commands))
    ensures Exact(NextCore(CoreAfter(roomId, commands), command)) <==> !Steals(CoreAfter(roomId, commands), command)
  {
    CoreAlwaysSound(roomId, commands);
    ExactStepIff(CoreAfter(roomId, commands), command);
  }

  lemma {:induction false} ThroughoutEndsExact(roomId: RoomId, commands: seq<Command>)
    requires ExactThroughout(roomId, commands)
    ensures Exact(CoreAfter(roomId, commands))
  {
  }

  /** Binding is exact at every point of a run if and only if no command of it steals. */
  lemma {:induction false} ExactThroughoutIff(roomId: RoomId, commands: seq<Command>)
    ensures ExactThroughout(roomId, commands) <==> NeverSteals(roomId, commands)
  {
    if commands != [] {
      var before, command := commands[..|commands| - 1], commands[|commands| - 1];
      ExactThroughoutIff(roomId, before);
      if ExactThroughout(roomId, before) {
        ThroughoutEndsExact(roomId, before);
        StepFromLinked(roomId, before, command);
      }
    }
  }

  /** No connection ever asks to speak for two users. */
  ghost predicate OneUserPerConnection(commands: seq<Command>) {
    forall i, j | 0 <= i < |commands| && 0 <= j < |commands| && Binds(commands[i]) && Binds(commands[j])
                  && commands[i].connection.connectionId == commands[j].connection.connectionId ::
      BoundUser(commands[i]) == BoundUser(commands[j])
  }

  /** A registered connection asked to speak for the user it is registered for. */
  lemma RegisteredAsked(roomId: RoomId, commands: seq<Command>, c: ConnectionId)
    requires c in CoreAfter(roomId, commands).connectionToUser
    ensures exists i :: 0 <= i < |commands| && Binds(commands[i]) && commands[i].connection.connectionId == c
                        && BoundUser(commands[i]) == CoreAfter(roomId, commands).connectionToUser[c]
  {
    var core := CoreAfter(roomId, commands);
    CoreAlwaysSound(roomId, commands);
    SlotsTraced(roomId, commands);
    var slot := core.playersBySeat[core.userToSeat[core.connectionToUser[c]]];
    assert BoundBy(commands, ConnectionHandle(c, slot.outboundTx.value), slot.userId);
  }

  lemma {:induction false} OneUserNeverSteals(roomId: RoomId, commands: seq<Command>)
    requires OneUserPerConnection(commands)
    ensures NeverSteals(roomId, commands)
  {
    if commands != [] {
      var before, command := commands[..|commands| - 1], commands[|commands| - 1];
      OneUserNeverSteals(roomId, before);
      var core := CoreAfter(roomId, before);
      if Binds(command) && command.connection.connectionId in core.connectionToUser {
        RegisteredAsked(roomId, before, command.connection.connectionId);
        var i :| 0 <= i < |before| && Binds(before[i])
                 && before[i].connection.connectionId == command.connection.connectionId
                 && BoundUser(before[i]) == core.connectionToUser[command.connection.connectionId];
        assert BoundUser(commands[i]) == BoundUser(command);
      }
    }
  }

  /**
   * Under one user per connection, registered connections and connected seats
   * are in bijection, through every join, takeover and disconnect.
   */
  lemma ConnectionsMatchSeats(roomId: RoomId, commands: seq<Command>)
    requires OneUserPerConnection(commands)
    ensures var core := CoreAfter(roomId, commands);
            && Exact(core)
            && (forall s | s in core.playersBySeat && core.playersBySeat[s].connected ::
                  core.playersBySeat[s].connectionId.Some?
                  && SeatForConnection(core, core.playersBySeat[s].connectionId.value) == Some(s))
            && (forall c | c in core.connectionToUser ::
                  SeatForConnection(core, c).Some?
                  && SeatForConnection(core, c).value in core.playersBySeat
                  && core.playersBySeat[SeatForConnection(core, c).value].connected
                  && core.playersBySeat[SeatForConnection(core, c).value].connectionId == Some(c))
  {
    OneUserNeverSteals(roomId, commands);
    ExactThroughoutIff(roomId, commands);
    ThroughoutEndsExact(roomId, commands);
    CoreAlwaysSound(roomId, commands);
  }

  // ---------- late disconnects ----------

  lemma StaysUnregistered(core: Core, command: Command, c: ConnectionId)
    requires c !in core.connectionToUser
    requires Binds(command) ==> command.connection.connectionId != c
    ensures c !in NextCore(core, command).connectionToUser
  {
  }

  lemma {:induction false} StaysUnregisteredThrough(roomId: RoomId, before: seq<Command>, between: seq<Command>,
                                                    c: ConnectionId)
    requires c !in CoreAfter(roomId, before).connectionToUser
    requires forall i | 0 <= i < |between| && Binds(between[i]) :: between[i].connection.connectionId != c
    ensures c !in CoreAfter(roomId, before + between).connectionToUser
  {
    if between == [] {
      assert before + between == before;
    } else {
      var last := |between| - 1;
      StaysUnregisteredThrough(roomId, before, between[..last], c);
      StaysUnregistered(CoreAfter(roomId, before + between[..last]), between[last], c);
      CoreAfterOne(roomId, before + between[..last], between[last]);
      assert before + between[..last] + [between[last]] == before + between;
    }
  }

  /**
   * Once a granted resume has moved a user from connection c to another one, c
   * stays unregistered through every continuation in which it asks for nothing.
   */
  lemma AbandonedConnection(roomId: RoomId, before: seq<Command>, takeover: Command, between: seq<Command>,
                            c: ConnectionId)
    requires takeover.ResumeSession? && takeover.connection.connectionId != c
    requires var core := CoreAfter(roomId, before);
             Accepted(core, takeover)
             && core.playersBySeat[core.userToSeat[takeover.resume.userId]].connectionId == Some(c)
    requires forall i | 0 <= i < |between| && Binds(between[i]) :: between[i].connection.connectionId != c
    ensures c !in CoreAfter(roomId, before + [takeover] + between).connectionToUser
  {
    CoreAfterOne(roomId, before, takeover);
    StaysUnregisteredThrough(roomId, before + [takeover], between, c);
  }

  /** A disconnect changes a room, its numbering and its output if and only if its connection is registered. */
  lemma DisconnectIsNoOpIff(r: Room, entry: Entry)
    requires entry.command.Disconnect?
    ensures Step(r, entry) == r <==> entry.command.connectionId !in r.core.connectionToUser
  {
    var c := entry.command.connectionId;
    if c in r.core.connectionToUser {
      assert c !in Step(r, entry).core.connectionToUser;
    }
  }

  /** A command that changes nothing where it is handled can be left out of the run. */
  lemma DropNoOp(r: Room, calm: seq<Entry>, late: Entry, after: seq<Entry>)
    requires Step(RunFrom(r, calm), late) == RunFrom(r, calm)
    ensures RunFrom(r, calm + [late] + after) == RunFrom(r, calm + after)
  {
    assert (calm + [late])[..|calm|] == calm;
    assert RunFrom(r, calm + [late]) == RunFrom(r, calm);
    RunFromConcat(r, calm + [late], after);
    RunFromConcat(r, calm, after);
  }

  /**
   * Late disconnects are harmless: after a takeover from c, a Disconnect(c) can be
   * dropped from the run wherever it arrives before c has asked to bind again,
   * whatever else the clients do.
   */
  lemma LateDisconnectHarmless(roomId: RoomId, before: seq<Entry>, takeover: Entry, between: seq<Entry>,
                               late: Entry, after: seq<Entry>)
    requires takeover.command.ResumeSession? && late.command.Disconnect?
    requires var core := Run(roomId, before).core;
             var c := late.command.connectionId;
             && takeover.command.connection.connectionId != c
             && Accepted(core, takeover.command)
             && core.playersBySeat[core.userToSeat[takeover.command.resume.userId]].connectionId == Some(c)
             && forall i | 0 <= i < |between| && Binds(between[i].command) ::
                  between[i].command.connection.connectionId != c
    ensures Run(roomId, before + [takeover] + between + [late] + after)
         == Run(roomId, before + [takeover] + between + after)
  {
    var calm := before + [takeover] + between;
    RunCore(roomId, before);
    RunCore(roomId, calm);
    assert Commands(calm) == Commands(before) + [takeover.command] + Commands(between);
    AbandonedConnection(roomId, Commands(before), takeover.command, Commands(between), late.command.connectionId);
    DisconnectIsNoOpIff(Run(roomId, calm), late);
    DropNoOp(NewRoom(roomId), calm, late, after);
  }

  // ---------- when everybody has left ----------

  /** Every request to bind is followed by the disconnect of its connection. */
  ghost predicate EveryoneLeaves(commands: seq<Command>) {
    forall i | 0 <= i < |commands| && Binds(commands[i]) ::
      Disconnect(commands[i].connection.connectionId) in commands[i + 1..]
  }

  /** A registered connection asked to bind and has not been disconnected since. */
  ghost predicate Lingers(commands: seq<Command>, c: ConnectionId) {
    exists i :: 0 <= i < |commands| && Binds(commands[i]) && commands[i].connection.connectionId == c
                && Disconnect(c) !in commands[i + 1..]
  }

  lemma LingersGrows(commands: seq<Command>, command: Command, c: ConnectionId)
    requires Lingers(commands, c) && command != Disconnect(c)
    ensures Lingers(commands + [command], c)
  {
    var i :| 0 <= i < |commands| && Binds(commands[i]) && commands[i].connection.connectionId == c
             && Disconnect(c) !in commands[i + 1..];
    var now := commands + [command];
    assert now[i] == commands[i] && now[i + 1..] == commands[i + 1..] + [command];
  }

  lemma RegisteredBy(core: Core, command: Command, c: ConnectionId)
    requires c in NextCore(core, command).connectionToUser
    ensures command != Disconnect(c)
    ensures c in core.connectionToUser || (Binds(command) && command.connection.connectionId == c)
  {
  }

  lemma {:induction false} RegisteredLingers(roomId: RoomId, commands: seq<Command>, c: ConnectionId)
    requires c in CoreAfter(roomId, commands).connectionToUser
    ensures Lingers(commands, c)
  {
    var last := |commands| - 1;
    var core := CoreAfter(roomId, commands[..last]);
    assert commands[..last] + [commands[last]] == commands;
    RegisteredBy(core, commands[last], c);
    if c in core.connectionToUser {
      RegisteredLingers(roomId, commands[..last], c);
      LingersGrows(commands[..last], commands[last], c);
    } else {
      assert commands[last + 1..] == [];
    }
  }

  /**
   * When every connection that asked to bind has disconnected since, none is
   * registered; and, under one user per connection, every slot is disconnected.
   */
  lemma EveryoneGone(roomId: RoomId, commands: seq<Command>)
    requires EveryoneLeaves(commands)
    ensures CoreAfter(roomId, commands).connectionToUser == map[]
    ensures OneUserPerConnection(commands) ==>
              forall s | s in CoreAfter(roomId, commands).playersBySeat ::
                var slot := CoreAfter(roomId, commands).playersBySeat[s];
                !slot.connected && slot.connectionId.None? && slot.outboundTx.None?
  {
    var core := CoreAfter(roomId, commands);
    forall c | c in core.connectionToUser
      ensures false
    {
      RegisteredLingers(roomId, commands, c);
    }
    CoreAlwaysSound(roomId, commands);
    if OneUserPerConnection(commands) {
      ConnectionsMatchSeats(roomId, commands);
    }
  }

  /**
   * Without that discipline a seat stays connected: a connection that
   * joins as two users and leaves keeps the first user's slot.
   */
  lemma SharedConnectionLingers(roomId: RoomId, socket: ConnectionHandle, first: Command, second: Command)
    requires first.Join? && second.Join? && first.connection == socket && second.connection == socket
    requires first.join.userId != second.join.userId
    ensures var core := CoreAfter(roomId, [first, second, Disconnect(socket.connectionId)]);
            && core.connectionToUser == map[]
            && East in core.playersBySeat
            && core.playersBySeat[East].userId == first.join.userId
            && core.playersBySeat[East].connected
  {
    var leave := Disconnect(socket.connectionId);
    CoreAfterOne(roomId, [], first);
    CoreAfterOne(roomId, [first], second);
    CoreAfterOne(roomId, [first, second], leave);
    assert [] + [first] == [first] && [first] + [second] == [first, second];
    assert [first, second] + [leave] == [first, second, leave];
    var one := Enroll(NewCore(roomId), socket, first.join, East);
    assert CoreAfter(roomId, [first]) == one;
    assert CoreAfter(roomId, [first, second]) == Enroll(one, socket, second.join, South);
  }
}
