// Who gets which seat, as a function of the Join commands alone
// (src/room.rs:403-481, 750-754).
module Seating {
  import opened Wrappers
  import opened Protocol
  import opened RoomSpec
  import opened RoomCore

  /** The distinct users that ever asked to join, in the order they first asked. */
  function Joiners(commands: seq<Command>): seq<UserId> {
    if commands == [] then []
    else
      var last := |commands| - 1;
      var before := Joiners(commands[..last]);
      if commands[last].Join? && commands[last].join.userId !in before
      then before + [commands[last].join.userId]
      else before
  }

  ghost predicate Filled(core: Core, n: nat) {
    && NoSeat !in core.playersBySeat
    && forall k: nat | k < 4 :: SeatAt(k) in core.playersBySeat <==> k < n
  }

  ghost predicate Placed(core: Core, users: seq<UserId>) {
    forall k: nat | k < 4 && k < |users| ::
      && SeatAt(k) in core.playersBySeat
      && core.playersBySeat[SeatAt(k)].userId == users[k]
      && users[k] in core.userToSeat
      && core.userToSeat[users[k]] == SeatAt(k)
  }

  ghost predicate NobodyElse(core: Core, users: seq<UserId>) {
    forall u | u in core.userToSeat :: exists k: nat :: k < 4 && k < |users| && users[k] == u
  }

  /** The k-th user sits in the k-th seat of SEAT_ORDER, and nobody else sits. */
  ghost predicate SeatedInOrder(core: Core, users: seq<UserId>) {
    Filled(core, |users|) && Placed(core, users) && NobodyElse(core, users)
  }

  /** The open seat is the one after those taken. */
  lemma OpenSeatFollows(core: Core, n: nat)
    requires Filled(core, n)
    ensures NextOpenSeat(core.playersBySeat) == if n < 4 then Some(SeatAt(n)) else None
  {
    assert SeatAt(0) == East && SeatAt(1) == South && SeatAt(2) == West && SeatAt(3) == North;
  }

  lemma JoinPlaced(core: Core, users: seq<UserId>, connection: ConnectionHandle, join: JoinRequest)
    requires Placed(core, users) && join.userId !in users && |users| < 4
    ensures Placed(Enroll(core, connection, join, SeatAt(|users|)), users + [join.userId])
  {
    var next, now := Enroll(core, connection, join, SeatAt(|users|)), users + [join.userId];
    forall k: nat | k < 4 && k < |now|
      ensures SeatAt(k) in next.playersBySeat && next.playersBySeat[SeatAt(k)].userId == now[k]
      ensures now[k] in next.userToSeat && next.userToSeat[now[k]] == SeatAt(k)
    {
      if k < |users| {
        assert now[k] == users[k] && users[k] in users;
        assert SeatAt(k) != SeatAt(|users|);
      }
    }
  }

  lemma JoinNobodyElse(core: Core, users: seq<UserId>, connection: ConnectionHandle, join: JoinRequest, seat: Seat)
    requires NobodyElse(core, users) && |users| < 4
    ensures NobodyElse(Enroll(core, connection, join, seat), users + [join.userId])
  {
    var next, now := Enroll(core, connection, join, seat), users + [join.userId];
    forall u | u in next.userToSeat
      ensures exists k: nat :: k < 4 && k < |now| && now[k] == u
    {
      if u == join.userId {
        assert now[|users|] == u;
      } else {
        var k: nat :| k < 4 && k < |users| && users[k] == u;
        assert now[k] == u;
      }
    }
  }

  /** Every command but an accepted join keeps the lookup from users to seats. */
  lemma OthersKeepUsers(core: Core, command: Command)
    requires !command.Join?
    ensures NextCore(core, command).userToSeat == core.userToSeat
  {
  }

  /** Every command but an accepted join keeps every user in place. */
  lemma OthersKeepSeats(core: Core, command: Command)
    requires !command.Join?
    ensures NextCore(core, command).playersBySeat.Keys == core.playersBySeat.Keys
    ensures forall s | s in core.playersBySeat ::
              NextCore(core, command).playersBySeat[s].userId == core.playersBySeat[s].userId
  {
  }

  /** The order of seating looks only at who sits where. */
  lemma SameSeating(core: Core, next: Core, users: seq<UserId>)
    requires SeatedInOrder(core, users)
    requires next.userToSeat == core.userToSeat && next.playersBySeat.Keys == core.playersBySeat.Keys
    requires forall s | s in core.playersBySeat :: next.playersBySeat[s].userId == core.playersBySeat[s].userId
    ensures SeatedInOrder(next, users)
  {
  }

  lemma JoinSeatedInOrder(core: Core, users: seq<UserId>, command: Command)
    requires SeatedInOrder(core, users) && command.Join? && command.join.userId !in users
    ensures SeatedInOrder(NextCore(core, command), users + [command.join.userId])
  {
    OpenSeatFollows(core, |users|);
    var now := users + [command.join.userId];
    assert command.join.userId !in core.userToSeat;
    if |users| < 4 {
      JoinPlaced(core, users, command.connection, command.join);
      JoinNobodyElse(core, users, command.connection, command.join, SeatAt(|users|));
      assert Filled(Enroll(core, command.connection, command.join, SeatAt(|users|)), |now|);
    } else {
      assert forall k: nat | k < 4 :: now[k] == users[k];
      assert NobodyElse(core, now);
    }
  }

  /** One command: a newcomer takes the next place, anything else changes none. */
  lemma NextSeatedInOrder(core: Core, users: seq<UserId>, command: Command)
    requires SeatedInOrder(core, users)
    ensures SeatedInOrder(NextCore(core, command),
                          if command.Join? && command.join.userId !in users
                          then users + [command.join.userId] else users)
  {
    var next := NextCore(core, command);
    if !command.Join? {
      OthersKeepUsers(core, command);
      OthersKeepSeats(core, command);
      SameSeating(core, next, users);
    } else if command.join.userId in users {
      OpenSeatFollows(core, |users|);
      assert command.join.userId in core.userToSeat || 4 <= |users|;
      assert next == core;
    } else {
      JoinSeatedInOrder(core, users, command);
    }
  }

  /** A user is named once: no two of the joiners are the same. */
  lemma {:induction false} JoinersDistinct(commands: seq<Command>, i: nat, j: nat)
    requires i < j < |Joiners(commands)|
    ensures Joiners(commands)[i] != Joiners(commands)[j]
  {
    var last := |commands| - 1;
    if j < |Joiners(commands[..last])| {
      JoinersDistinct(commands[..last], i, j);
    }
  }

  /**
   * Seating is a function of the history: the seated users are exactly the
   * first four distinct users in Join order, the k-th in the k-th seat.
   */
  lemma {:induction false} SeatedByHistory(roomId: RoomId, commands: seq<Command>)
    ensures SeatedInOrder(CoreAfter(roomId, commands), Joiners(commands))
    ensures forall i, j | 0 <= i < j < |Joiners(commands)| :: Joiners(commands)[i] != Joiners(commands)[j]
  {
    forall i, j | 0 <= i < j < |Joiners(commands)|
      ensures Joiners(commands)[i] != Joiners(commands)[j]
    {
      JoinersDistinct(commands, i, j);
    }
    if commands != [] {
      var last := |commands| - 1;
      SeatedByHistory(roomId, commands[..last]);
      NextSeatedInOrder(CoreAfter(roomId, commands[..last]), Joiners(commands[..last]), commands[last]);
    }
  }

  /** Once seated, a user keeps that seat through every continuation. */
  lemma {:induction false} SeatsNeverChange(roomId: RoomId, before: seq<Command>, after: seq<Command>)
    ensures var early, late := CoreAfter(roomId, before), CoreAfter(roomId, before + after);
            forall u | u in early.userToSeat :: u in late.userToSeat && late.userToSeat[u] == early.userToSeat[u]
  {
    if after == [] {
      assert before + after == before;
    } else {
      var last := |after| - 1;
      assert (before + after)[..|before + after| - 1] == before + after[..last];
      SeatsNeverChange(roomId, before, after[..last]);
      if !after[last].Join? {
        OthersKeepUsers(CoreAfter(roomId, before + after[..last]), after[last]);
      }
    }
  }
}
