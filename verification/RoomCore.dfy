// The core of a room over whole runs: seating, phase and the cross-linked
// connection maps (src/room.rs:403-598, 729-775).
module RoomCore {
  import opened Wrappers
  import opened Protocol
  import opened RoomSpec

  /** What a command does to the core, whatever the clock and the rule engine say. */
  function NextCore(core: Core, command: Command): Core {
    match command
    case Join(_, connection, join) =>
      if join.userId in core.userToSeat then core
      else (
        match NextOpenSeat(core.playersBySeat)
        case None => core
        case Some(seat) => Enroll(core, connection, join, seat))
    case Ready(_, c, ready) => (
      match SeatForConnection(core, c)
      case None => core
      case Some(seat) => MarkReady(core, seat, ready))
    case ResumeSession(_, connection, resume) =>
      if ResumeRefusal(core, resume).Some? then core
      else Rebind(core, core.userToSeat[resume.userId], connection)
    case PlayerAction(_, c, request) =>
      var screening := Screen(core, c, request);
      if screening.Toggle? && screening.seat in core.playersBySeat
      then SetAutoPlay(core, screening.seat, screening.enabled)
      else core
    case Disconnect(c) =>
      var forgotten := Forget(core, c);
      if && c in core.connectionToUser
         && core.connectionToUser[c] in core.userToSeat
         && core.userToSeat[core.connectionToUser[c]] in core.playersBySeat
      then Unseat(forgotten, core.userToSeat[core.connectionToUser[c]])
      else forgotten
  }

  function CoreAfter(roomId: RoomId, commands: seq<Command>): Core {
    if commands == [] then NewCore(roomId)
    else
      var last := |commands| - 1;
      NextCore(CoreAfter(roomId, commands[..last]), commands[last])
  }

  lemma CoreAfterOne(roomId: RoomId, commands: seq<Command>, command: Command)
    ensures CoreAfter(roomId, commands + [command]) == NextCore(CoreAfter(roomId, commands), command)
  {
    assert (commands + [command])[..|commands|] == commands;
  }

  function Commands(script: seq<Entry>): (commands: seq<Command>)
    ensures |commands| == |script|
    ensures forall i | 0 <= i < |script| :: commands[i] == script[i].command
  {
    seq(|script|, i requires 0 <= i < |script| => script[i].command)
  }

  lemma StepCore(r: Room, entry: Entry)
    ensures Step(r, entry).core == NextCore(r.core, entry.command)
  {
    if entry.command.Disconnect? && entry.command.connectionId !in r.core.connectionToUser {
      assert r.core.connectionToUser - {entry.command.connectionId} == r.core.connectionToUser;
    }
  }

  /**
   * Seats, phase and connection maps are a function of the commands alone: no
   * clock reading and no rule-engine answer or failure can influence them.
   */
  lemma {:induction false} RunCore(roomId: RoomId, script: seq<Entry>)
    ensures Run(roomId, script).core == CoreAfter(roomId, Commands(script))
  {
    if script != [] {
      var last := |script| - 1;
      RunCore(roomId, script[..last]);
      assert Commands(script)[..last] == Commands(script[..last]);
      StepCore(Run(roomId, script[..last]), script[last]);
    }
  }

  // ---------- invariants ----------

  /** Every known user sits in a slot that carries the user's name. */
  ghost predicate UsersSeated(core: Core) {
    forall u | u in core.userToSeat ::
      core.userToSeat[u] in core.playersBySeat && core.playersBySeat[core.userToSeat[u]].userId == u
  }

  /** Every slot knows its own seat, and its user is looked up to it. */
  ghost predicate SeatsNamed(core: Core) {
    forall s | s in core.playersBySeat ::
      && s != NoSeat
      && core.playersBySeat[s].seat == s
      && core.playersBySeat[s].userId in core.userToSeat
      && core.userToSeat[core.playersBySeat[s].userId] == s
  }

  /** connected, has-connection-id and has-channel are one and the same on every slot. */
  ghost predicate Wired(core: Core) {
    forall s | s in core.playersBySeat ::
      && core.playersBySeat[s].connected == core.playersBySeat[s].connectionId.Some?
      && core.playersBySeat[s].connected == core.playersBySeat[s].outboundTx.Some?
  }

  /** A registered connection is the connection of its user's slot. */
  ghost predicate Registered(core: Core) {
    forall c | c in core.connectionToUser ::
      && core.connectionToUser[c] in core.userToSeat
      && core.userToSeat[core.connectionToUser[c]] in core.playersBySeat
      && core.playersBySeat[core.userToSeat[core.connectionToUser[c]]].connectionId == Some(c)
  }

  ghost predicate IsReady(players: map<Seat, PlayerSlot>, seat: Seat) {
    seat in players && players[seat].status == PlayerStatus.Ready
  }

  /** All four seats are taken by players who are ready. */
  ghost predicate FourReady(players: map<Seat, PlayerSlot>) {
    IsReady(players, East) && IsReady(players, South) && IsReady(players, West) && IsReady(players, North)
  }

  /** The phase is Dealing exactly when all four seats are taken by players who are ready. */
  ghost predicate PhaseCached(core: Core) {
    && core.phase == (if FourReady(core.playersBySeat) then Dealing else Lobby)
    && (forall s | s in core.playersBySeat ::
          core.playersBySeat[s].status == Joined || core.playersBySeat[s].status == PlayerStatus.Ready)
  }

  /** The three maps fit together: the first two are inverse, the third points into them. */
  ghost predicate Linked(core: Core) {
    UsersSeated(core) && SeatsNamed(core) && Wired(core) && Registered(core)
  }

  lemma NextCoreUsersSeated(core: Core, command: Command)
    requires UsersSeated(core)
    ensures UsersSeated(NextCore(core, command))
  {
  }

  lemma EnrollSeatsNamed(core: Core, connection: ConnectionHandle, join: JoinRequest, seat: Seat)
    requires SeatsNamed(core) && join.userId !in core.userToSeat && seat != NoSeat
    ensures SeatsNamed(Enroll(core, connection, join, seat))
  {
  }

  lemma NextCoreSeatsNamed(core: Core, command: Command)
    requires SeatsNamed(core)
    ensures SeatsNamed(NextCore(core, command))
  {
    if command.Join? {
      var seat := NextOpenSeat(core.playersBySeat);
      if command.join.userId !in core.userToSeat && seat.Some? {
        EnrollSeatsNamed(core, command.connection, command.join, seat.value);
      }
    }
  }

  lemma NextCoreWired(core: Core, command: Command)
    requires Wired(core)
    ensures Wired(NextCore(core, command))
  {
  }

  lemma EnrollRegistered(core: Core, connection: ConnectionHandle, join: JoinRequest, seat: Seat)
    requires Registered(core) && join.userId !in core.userToSeat && seat !in core.playersBySeat
    ensures Registered(Enroll(core, connection, join, seat))
  {
  }

  lemma RebindRegistered(core: Core, seat: Seat, connection: ConnectionHandle)
    requires UsersSeated(core) && SeatsNamed(core) && Registered(core) && seat in core.playersBySeat
    ensures Registered(Rebind(core, seat, connection))
  {
    forall c | c in core.connectionToUser && core.playersBySeat[seat].connectionId != Some(c)
      ensures core.userToSeat[core.connectionToUser[c]] != seat
    {
    }
  }

  lemma DisconnectRegistered(core: Core, c: ConnectionId)
    requires UsersSeated(core) && Registered(core)
    ensures Registered(NextCore(core, Disconnect(c)))
  {
  }

  lemma OthersRegistered(core: Core, command: Command)
    requires Registered(core) && (command.Ready? || command.PlayerAction?)
    ensures Registered(NextCore(core, command))
  {
  }

  lemma JoinRegistered(core: Core, command: Command)
    requires Registered(core) && command.Join?
    ensures Registered(NextCore(core, command))
  {
    var seat := NextOpenSeat(core.playersBySeat);
    if command.join.userId !in core.userToSeat && seat.Some? {
      EnrollRegistered(core, command.connection, command.join, seat.value);
    }
  }

  lemma ResumeRegistered(core: Core, command: Command)
    requires UsersSeated(core) && SeatsNamed(core) && Registered(core) && command.ResumeSession?
    ensures Registered(NextCore(core, command))
  {
    if ResumeRefusal(core, command.resume).None? {
      RebindRegistered(core, core.userToSeat[command.resume.userId], command.connection);
    }
  }

  lemma NextCoreLinked(core: Core, command: Command)
    requires Linked(core)
    ensures Linked(NextCore(core, command))
  {
    NextCoreUsersSeated(core, command);
    NextCoreSeatsNamed(core, command);
    NextCoreWired(core, command);
    if command.Join? {
      JoinRegistered(core, command);
    } else if command.ResumeSession? {
      ResumeRegistered(core, command);
    } else if command.Disconnect? {
      DisconnectRegistered(core, command.connectionId);
    } else {
      OthersRegistered(core, command);
    }
  }

  // ---------- the phase ----------

  lemma {:induction false} SubsetSize<T>(small: set<T>, large: set<T>)
    requires small <= large
    ensures |small| <= |large|
  {
    if small != {} {
      var x :| x in small;
      SubsetSize(small - {x}, large - {x});
    }
  }

  lemma SameSizeSubset<T>(small: set<T>, large: set<T>)
    requires small <= large && |small| == |large|
    ensures small == large
  {
    if exists x :: x in large && x !in small {
      var x :| x in large && x !in small;
      assert small <= large - {x};
      SubsetSize(small, large - {x});
    }
  }

  /** Counting the players and looking at every status comes to looking at the four seats. */
  lemma FourReadyIff(players: map<Seat, PlayerSlot>)
    requires NoSeat !in players
    ensures AllReady(players) <==> FourReady(players)
  {
    var all := {East, South, West, North};
    forall s | s in players
      ensures s in all
    {
      match s {
        case NoSeat =>
        case East =>
        case South =>
        case West =>
        case North =>
      }
    }
    assert |players| == |players.Keys|;
    if FourReady(players) {
      assert players.Keys == all;
    }
    if AllReady(players) {
      SameSizeSubset(players.Keys, all);
    }
  }

  /** Only a ready request touches readiness, and only its own seat's. */
  lemma ReadinessOnlyByReady(core: Core, command: Command)
    ensures forall s | s in core.playersBySeat ::
              && s in NextCore(core, command).playersBySeat
              && (NextCore(core, command).playersBySeat[s].status != core.playersBySeat[s].status ==>
                    command.Ready? && SeatForConnection(core, command.connectionId) == Some(s))
  {
  }

  /** A table with an open seat is not ready, nor is one with a newcomer. */
  lemma EnrollPhase(core: Core, connection: ConnectionHandle, join: JoinRequest, seat: Seat)
    requires PhaseCached(core) && NextOpenSeat(core.playersBySeat) == Some(seat)
    ensures PhaseCached(Enroll(core, connection, join, seat))
  {
    assert Enroll(core, connection, join, seat).playersBySeat[seat].status == Joined;
  }

  lemma ReadyPhase(core: Core, seat: Seat, ready: bool)
    requires SeatsNamed(core) && PhaseCached(core)
    ensures PhaseCached(MarkReady(core, seat, ready))
  {
    FourReadyIff(MarkReady(core, seat, ready).playersBySeat);
  }

  lemma NextCorePhase(core: Core, command: Command)
    requires SeatsNamed(core) && PhaseCached(core)
    ensures PhaseCached(NextCore(core, command))
  {
    if command.Join? {
      var seat := NextOpenSeat(core.playersBySeat);
      if command.join.userId !in core.userToSeat && seat.Some? {
        EnrollPhase(core, command.connection, command.join, seat.value);
      }
    } else if command.Ready? {
      var seat := SeatForConnection(core, command.connectionId);
      if seat.Some? {
        ReadyPhase(core, seat.value, command.ready);
      }
    } else {
      OthersPhase(core, command);
    }
  }

  lemma OthersPhase(core: Core, command: Command)
    requires PhaseCached(core) && !command.Join? && !command.Ready?
    ensures PhaseCached(NextCore(core, command))
  {
    ReadinessOnlyByReady(core, command);
    OthersKeepPlayers(core, command);
  }

  /** Only a join adds a seat, and only a ready request changes the phase. */
  lemma OthersKeepPlayers(core: Core, command: Command)
    requires !command.Join? && !command.Ready?
    ensures NextCore(core, command).playersBySeat.Keys == core.playersBySeat.Keys
    ensures NextCore(core, command).phase == core.phase
  {
  }

  ghost predicate Sound(core: Core) {
    Linked(core) && PhaseCached(core)
  }

  /** Every invariant of the core holds after every run, unconditionally. */
  lemma {:induction false} CoreAlwaysSound(roomId: RoomId, commands: seq<Command>)
    ensures Sound(CoreAfter(roomId, commands))
  {
    if commands != [] {
      var last := |commands| - 1;
      CoreAlwaysSound(roomId, commands[..last]);
      NextCoreLinked(CoreAfter(roomId, commands[..last]), commands[last]);
      NextCorePhase(CoreAfter(roomId, commands[..last]), commands[last]);
    }
  }

  /** After every command list the phase is Dealing if and only if all four seats are ready, and Lobby otherwise. */
  lemma PhaseAfter(roomId: RoomId, commands: seq<Command>)
    ensures CoreAfter(roomId, commands).phase
         == if FourReady(CoreAfter(roomId, commands).playersBySeat) then Dealing else Lobby
  {
    CoreAlwaysSound(roomId, commands);
  }

  /** The first hand of an east round, never moved on. */
  ghost predicate FirstHand(round: RoundInfo) {
    && round.prevailingWind == East && round.dealerSeat == East && round.currentTurnSeat == East
    && round.handNumber == 1 && round.dealerStreak == 0
    && round.wallTilesRemaining == 144 && round.deadWallTilesRemaining == 14
  }

  lemma NextKeepsRound(core: Core, command: Command)
    ensures NextCore(core, command).round == core.round
    ensures NextCore(core, command).roomId == core.roomId && NextCore(core, command).matchId == core.matchId
  {
  }

  /** No command changes a room's name, its match or its round. */
  lemma {:induction false} RoundAfter(roomId: RoomId, commands: seq<Command>)
    ensures FirstHand(CoreAfter(roomId, commands).round)
    ensures CoreAfter(roomId, commands).roomId == roomId && CoreAfter(roomId, commands).matchId == "match-" + roomId
  {
    if commands != [] {
      RoundAfter(roomId, commands[..|commands| - 1]);
      NextKeepsRound(CoreAfter(roomId, commands[..|commands| - 1]), commands[|commands| - 1]);
    }
  }

  /** No user is reached by two connections. */
  lemma OneConnectionPerUser(roomId: RoomId, commands: seq<Command>, c: ConnectionId, d: ConnectionId)
    requires var core := CoreAfter(roomId, commands);
             c in core.connectionToUser && d in core.connectionToUser
             && core.connectionToUser[c] == core.connectionToUser[d]
    ensures c == d
  {
    CoreAlwaysSound(roomId, commands);
  }
}
