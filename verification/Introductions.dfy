// What a seat remembers of its player: the name given when the user first asked to
// join (src/room.rs:403-481).
module Introductions {
  import opened Wrappers
  import opened Protocol
  import opened RoomSpec
  import opened RoomCore
  import opened Connections
  import opened Requests
  import opened Seating

  /** The first join of a user. */
  ghost predicate FirstJoin(commands: seq<Command>, user: UserId, i: nat) {
    && i < |commands| && commands[i].Join? && commands[i].join.userId == user
    && forall j | 0 <= j < i && commands[j].Join? :: commands[j].join.userId != user
  }

  /** The slot carries the name given at its user's first join, and the starting score. */
  ghost predicate Introduced(commands: seq<Command>, slot: PlayerSlot) {
    && slot.score == 25_000
    && exists i: nat :: FirstJoin(commands, slot.userId, i) && commands[i].join.displayName == slot.displayName
  }

  lemma IntroducedGrows(commands: seq<Command>, command: Command, slot: PlayerSlot)
    requires Introduced(commands, slot)
    ensures Introduced(commands + [command], slot)
  {
    var i: nat :| FirstJoin(commands, slot.userId, i) && commands[i].join.displayName == slot.displayName;
    assert FirstJoin(commands + [command], slot.userId, i);
  }

  lemma {:induction false} JoinedIsListed(commands: seq<Command>, i: nat)
    requires i < |commands| && commands[i].Join?
    ensures commands[i].join.userId in Joiners(commands)
  {
    var last := |commands| - 1;
    if i < last {
      JoinedIsListed(commands[..last], i);
      assert forall u | u in Joiners(commands[..last]) :: u in Joiners(commands);
    }
  }

  /** A room that knows fewer than four users knows everybody who has asked to join. */
  lemma StrangerIsNew(roomId: RoomId, commands: seq<Command>, user: UserId)
    requires user !in CoreAfter(roomId, commands).userToSeat
    requires NextOpenSeat(CoreAfter(roomId, commands).playersBySeat).Some?
    ensures user !in Joiners(commands)
  {
    var core, users := CoreAfter(roomId, commands), Joiners(commands);
    SeatedByHistory(roomId, commands);
    KnownUsers(roomId, commands, user);
    OpenSeatFollows(core, |users|);
    assert |users| < 4;
    forall k: nat | k < |users|
      ensures users[k] != user
    {
      assert k < 4;
    }
  }

  /** A user whom a room takes in has never asked to join it before. */
  lemma NewcomerIsNew(roomId: RoomId, commands: seq<Command>, command: Command)
    requires command.Join? && Accepted(CoreAfter(roomId, commands), command)
    ensures FirstJoin(commands + [command], command.join.userId, |commands|)
  {
    StrangerIsNew(roomId, commands, command.join.userId);
    forall j: nat | j < |commands| && commands[j].Join?
      ensures commands[j].join.userId != command.join.userId
    {
      JoinedIsListed(commands, j);
    }
  }

  /** No command but a granted join changes any slot's user, name or score, or adds a slot. */
  lemma OthersKeepNames(core: Core, command: Command)
    requires !(command.Join? && Accepted(core, command))
    ensures NextCore(core, command).playersBySeat.Keys == core.playersBySeat.Keys
    ensures forall s | s in core.playersBySeat ::
              var slot := NextCore(core, command).playersBySeat[s];
              && slot.userId == core.playersBySeat[s].userId
              && slot.displayName == core.playersBySeat[s].displayName && slot.score == core.playersBySeat[s].score
  {
  }

  lemma NextIntroduced(roomId: RoomId, commands: seq<Command>, command: Command, s: Seat)
    requires forall t | t in CoreAfter(roomId, commands).playersBySeat ::
               Introduced(commands, CoreAfter(roomId, commands).playersBySeat[t])
    requires s in NextCore(CoreAfter(roomId, commands), command).playersBySeat
    ensures Introduced(commands + [command], NextCore(CoreAfter(roomId, commands), command).playersBySeat[s])
  {
    var core := CoreAfter(roomId, commands);
    if command.Join? && Accepted(core, command) && NextOpenSeat(core.playersBySeat) == Some(s) {
      NewcomerIsNew(roomId, commands, command);
      assert (commands + [command])[|commands|] == command;
    } else {
      if !(command.Join? && Accepted(core, command)) {
        OthersKeepNames(core, command);
      }
      IntroducedGrows(commands, command, core.playersBySeat[s]);
    }
  }

  /** After every command list each seat has its player's name as first given, and the starting score. */
  lemma {:induction false} SlotsIntroduced(roomId: RoomId, commands: seq<Command>)
    ensures forall s | s in CoreAfter(roomId, commands).playersBySeat ::
              Introduced(commands, CoreAfter(roomId, commands).playersBySeat[s])
  {
    if commands != [] {
      var before, command := commands[..|commands| - 1], commands[|commands| - 1];
      SlotsIntroduced(roomId, before);
      forall s | s in CoreAfter(roomId, commands).playersBySeat
        ensures Introduced(commands, CoreAfter(roomId, commands).playersBySeat[s])
      {
        NextIntroduced(roomId, before, command, s);
        assert before + [command] == commands;
      }
    }
  }
}
