// What a session issues, told from the frames it has received
// (src/ws.rs:32-107, 112-201).
module Routing {
  import opened Wrappers
  import opened Protocol
  import opened Server
  import opened Interleavings
  import opened Sessions

  /** The room of the last of some dispatches. */
  function LastRoom(issued: seq<Dispatch>): Option<RoomId> {
    if issued == [] then None else Some(issued[|issued| - 1].room)
  }

  /** An idle session issues exactly one dispatch for a frame that is meant for a room, and nothing for any other. */
  lemma ReceiveIssues(session: Session, frame: ClientFrame)
    ensures var after, n := Receive(session, frame), |session.issued|;
            if Speaks(frame, session.currentRoom) then
              && |after.issued| == n + 1 && after.issued[..n] == session.issued
              && Carries(after.issued[n], frame, session.handle, session.currentRoom)
              && after == session.(issued := after.issued, pc := Looking(after.issued[n]),
                                   currentRoom := Some(after.issued[n].room))
            else after == session
  {
  }

  // ---------- what was received ----------

  /** The action reaches a session that is waiting for its socket. */
  predicate Reaches(s: Sys, a: Action, c: ConnectionId) {
    (a.ReceiveFrame? || a.CloseSocket?) && a.c == c && c in s.sessions && s.sessions[c].pc.Idle?
  }

  /** The frames that a session has received, in order. */
  function Received(trace: seq<Action>, c: ConnectionId): seq<ClientFrame> {
    if trace == [] then []
    else
      var before, a := trace[..|trace| - 1], trace[|trace| - 1];
      Received(before, c) + if a.ReceiveFrame? && Reaches(Exec(before), a, c) then [a.frame] else []
  }

  /** The session's socket has closed. */
  predicate HungUp(trace: seq<Action>, c: ConnectionId) {
    trace != [] &&
    var before, a := trace[..|trace| - 1], trace[|trace| - 1];
    HungUp(before, c) || (a.CloseSocket? && Reaches(Exec(before), a, c))
  }

  /**
   * The dispatches are those of the frames that are meant for a room, one for
   * each, in order; a ready request goes to the room of the dispatch before it.
   */
  ghost predicate Spoken(handle: ConnectionHandle, frames: seq<ClientFrame>, said: seq<Dispatch>) {
    if frames == [] then said == []
    else
      var front, last, n := frames[..|frames| - 1], frames[|frames| - 1], |said| - 1;
      || (Spoken(handle, front, said) && !Speaks(last, LastRoom(said)))
      || (said != [] && Spoken(handle, front, said[..n]) && Speaks(last, LastRoom(said[..n]))
          && Carries(said[n], last, handle, LastRoom(said[..n])))
  }

  /** A session that has ever spoken to a room says goodbye to the last one. */
  function Farewell(handle: ConnectionHandle, said: seq<Dispatch>, hungUp: bool): seq<Dispatch> {
    if hungUp && said != [] then [Dispatch(said[|said| - 1].room, Disconnect(handle.connectionId))] else []
  }

  /** The session is closed, or about to be. */
  predicate Ending(session: Session) {
    session.pc.Closed? || (Active(session) && session.pc.dispatch.command.Disconnect?)
  }

  ghost predicate Routed(session: Session, frames: seq<ClientFrame>, hungUp: bool) {
    && (hungUp ==> Ending(session))
    && exists said :: Spoken(session.handle, frames, said) && session.issued == said + Farewell(session.handle, said, hungUp)
  }

  // ---------- one action ----------

  lemma SpokenMore(handle: ConnectionHandle, frames: seq<ClientFrame>, frame: ClientFrame, said: seq<Dispatch>,
                   more: seq<Dispatch>)
    requires Spoken(handle, frames, said)
    requires if Speaks(frame, LastRoom(said))
             then exists d :: more == [d] && Carries(d, frame, handle, LastRoom(said))
             else more == []
    ensures Spoken(handle, frames + [frame], said + more)
  {
    var all, now := frames + [frame], said + more;
    assert all[..|all| - 1] == frames;
    if more == [] {
      assert now == said;
    } else {
      assert now[..|now| - 1] == said;
    }
  }

  lemma SpokenSoFar(session: Session, frames: seq<ClientFrame>, hungUp: bool)
    requires session.pc.Idle? && Routed(session, frames, hungUp)
    ensures !hungUp && Spoken(session.handle, frames, session.issued)
  {
    var said :| Spoken(session.handle, frames, said) && session.issued == said + Farewell(session.handle, said, hungUp);
    assert said + [] == said;
  }

  lemma RoutedSoFar(session: Session, frames: seq<ClientFrame>)
    requires Spoken(session.handle, frames, session.issued)
    ensures Routed(session, frames, false)
  {
    assert session.issued == session.issued + Farewell(session.handle, session.issued, false);
  }

  lemma ReceiveRouted(session: Session, frames: seq<ClientFrame>, frame: ClientFrame)
    requires SessionOk(session) && session.pc.Idle? && Spoken(session.handle, frames, session.issued)
    ensures Routed(Receive(session, frame), frames + [frame], false)
  {
    var after, said := Receive(session, frame), session.issued;
    assert session.currentRoom == LastRoom(said);
    ReceiveIssues(session, frame);
    if Speaks(frame, LastRoom(said)) {
      SpokenMore(session.handle, frames, frame, said, [after.issued[|said|]]);
      assert after.issued == said + [after.issued[|said|]];
    } else {
      SpokenMore(session.handle, frames, frame, said, []);
      assert said + [] == said;
    }
    RoutedSoFar(after, frames + [frame]);
  }

  lemma CloseRouted(session: Session, frames: seq<ClientFrame>)
    requires SessionOk(session) && session.pc.Idle? && Spoken(session.handle, frames, session.issued)
    ensures Routed(Close(session), frames, true)
  {
    var said := session.issued;
    assert session.currentRoom == LastRoom(said);
    assert said + [] == said;
    assert Close(session).issued == said + Farewell(session.handle, said, true);
  }

  lemma IdleUntouched(s: Sys, a: Action, c: ConnectionId)
    requires c in s.sessions && s.sessions[c].pc.Idle? && !Reaches(s, a, c)
    requires a.Connect? ==> c != ConnectionName(s.nextConnection)
    ensures c in Next(s, a).sessions && Next(s, a).sessions[c] == s.sessions[c]
  {
  }

  lemma BusyKeepsIssued(before: Session, after: Session)
    requires !before.pc.Idle? && Moves(before, after)
    ensures after.issued == before.issued && after.handle == before.handle
    ensures Ending(before) ==> Ending(after)
  {
  }

  /** Any other action leaves what the session has issued, and an ending session keeps ending. */
  lemma OthersKeepIssued(s: Sys, a: Action, c: ConnectionId)
    requires NamesOk(s) && c in s.sessions && !Reaches(s, a, c)
    ensures c in Next(s, a).sessions
    ensures Next(s, a).sessions[c].issued == s.sessions[c].issued && Next(s, a).sessions[c].handle == s.sessions[c].handle
    ensures Ending(s.sessions[c]) ==> Ending(Next(s, a).sessions[c])
  {
    FreshName(s);
    if s.sessions[c].pc.Idle? {
      IdleUntouched(s, a, c);
    } else {
      NextMoves(s, a, c);
      BusyKeepsIssued(s.sessions[c], Next(s, a).sessions[c]);
    }
  }

  lemma NextMoves(s: Sys, a: Action, c: ConnectionId)
    requires c in s.sessions && !s.sessions[c].pc.Idle?
    requires a.Connect? ==> c != ConnectionName(s.nextConnection)
    ensures c in Next(s, a).sessions && Moves(s.sessions[c], Next(s, a).sessions[c])
  {
    SessionMoves(s, a, c);
    if Enqueues(s, a) && a.c == c {
      assert Active(s.sessions[c]);
    }
  }

  lemma ReachedSession(s: Sys, a: Action, c: ConnectionId)
    requires Reaches(s, a, c)
    ensures c in Next(s, a).sessions
    ensures Next(s, a).sessions[c] == if a.ReceiveFrame? then Receive(s.sessions[c], a.frame) else Close(s.sessions[c])
  {
  }

  /** A session that is new has received nothing and issued nothing. */
  lemma NewcomersRouted(s: Sys, a: Action, c: ConnectionId)
    requires c !in s.sessions && c in Next(s, a).sessions
    ensures Routed(Next(s, a).sessions[c], [], false)
  {
    HandlesKept(s, a);
    var session := Next(s, a).sessions[c];
    assert session.issued == [];
    assert Spoken(session.handle, [], []);
  }

  lemma {:induction false} UnknownHeardNothing(trace: seq<Action>, c: ConnectionId)
    requires c !in Exec(trace).sessions
    ensures Received(trace, c) == [] && !HungUp(trace, c)
  {
    if trace != [] {
      var before, a := trace[..|trace| - 1], trace[|trace| - 1];
      HandlesKept(Exec(before), a);
      UnknownHeardNothing(before, c);
    }
  }

  lemma NextRouted(s: Sys, a: Action, c: ConnectionId, frames: seq<ClientFrame>, hungUp: bool)
    requires NamesOk(s) && SessionsOk(s) && c in s.sessions && Routed(s.sessions[c], frames, hungUp)
    ensures c in Next(s, a).sessions
    ensures Routed(Next(s, a).sessions[c],
                   frames + (if a.ReceiveFrame? && Reaches(s, a, c) then [a.frame] else []),
                   hungUp || (a.CloseSocket? && Reaches(s, a, c)))
  {
    if Reaches(s, a, c) {
      ReachedSession(s, a, c);
      SpokenSoFar(s.sessions[c], frames, hungUp);
      if a.ReceiveFrame? {
        ReceiveRouted(s.sessions[c], frames, a.frame);
      } else {
        CloseRouted(s.sessions[c], frames);
        assert frames + [] == frames;
      }
    } else {
      OthersKeepIssued(s, a, c);
      assert frames + [] == frames;
    }
  }

  /**
   * Under every interleaving, what a session has issued is one dispatch for each
   * frame it received that was meant for a room, in order and with the frame's
   * own request; and, once its socket has closed, its disconnect to the last room
   * it spoke to.
   */
  lemma {:induction false} IssuedAsReceived(trace: seq<Action>, c: ConnectionId)
    requires c in Exec(trace).sessions
    ensures Routed(Exec(trace).sessions[c], Received(trace, c), HungUp(trace, c))
  {
    assert trace != [];
    var before, a := trace[..|trace| - 1], trace[|trace| - 1];
    if c in Exec(before).sessions {
      IssuedAsReceived(before, c);
      ExecServerOk(before);
      NextRouted(Exec(before), a, c, Received(before, c), HungUp(before, c));
    } else {
      UnknownHeardNothing(before, c);
      NewcomersRouted(Exec(before), a, c);
    }
  }

  // ---------- which dispatches find a room ----------

  /** On its way to create a room, a session carries a join. */
  predicate InCreation(session: Session) {
    session.pc.AwaitingWrite? || session.pc.WriteLocked? || session.pc.Creating?
  }

  ghost predicate JoinsHeard(session: Session)
    requires |session.delivered| <= |session.issued|
  {
    && (InCreation(session) ==> session.pc.dispatch.command.Join?)
    && forall k | 0 <= k < |session.delivered| && session.issued[k].command.Join? :: session.delivered[k]
  }

  /** How an active session ends its dispatch or stands with it after one action. */
  lemma CreationStep(s: Sys, a: Action, c: ConnectionId)
    requires c in s.sessions && Active(s.sessions[c]) && (a.Connect? ==> c != ConnectionName(s.nextConnection))
    requires InCreation(s.sessions[c]) ==> s.sessions[c].pc.dispatch.command.Join?
    ensures c in Next(s, a).sessions
    ensures InCreation(Next(s, a).sessions[c]) ==> Next(s, a).sessions[c].pc.dispatch.command.Join?
    ensures Next(s, a).sessions[c] == Finish(s.sessions[c], s.sessions[c].pc.dispatch, false) ==>
              !s.sessions[c].pc.dispatch.command.Join?
  {
    var before := s.sessions[c];
    if Next(s, a).sessions[c] == Finish(before, before.pc.dispatch, false) {
      assert |Next(s, a).sessions[c].delivered| == |before.delivered| + 1;
      assert !Next(s, a).sessions[c].delivered[|before.delivered|];
    }
  }

  lemma JoinsHeardActive(before: Session, after: Session)
    requires SessionOk(before) && SessionOk(after) && Active(before) && Moves(before, after) && JoinsHeard(before)
    requires InCreation(after) ==> after.pc.dispatch.command.Join?
    requires after == Finish(before, before.pc.dispatch, false) ==> !before.pc.dispatch.command.Join?
    ensures JoinsHeard(after)
  {
    forall k | 0 <= k < |after.delivered| && after.issued[k].command.Join?
      ensures after.delivered[k]
    {
      assert after.issued == before.issued;
      if k < |before.delivered| {
        assert before.delivered[k];
      }
    }
  }

  lemma JoinsHeardIdle(before: Session, after: Session)
    requires SessionOk(before) && !Active(before) && Moves(before, after) && JoinsHeard(before)
    ensures |after.delivered| <= |after.issued| && JoinsHeard(after)
  {
  }

  ghost predicate AllJoinsHeard(s: Sys)
    requires SessionsOk(s)
  {
    forall c | c in s.sessions :: JoinsHeard(s.sessions[c])
  }

  lemma NextJoinsHeard(s: Sys, a: Action)
    requires NamesOk(s) && SessionsOk(s) && AllJoinsHeard(s) && SessionsOk(Next(s, a))
    ensures AllJoinsHeard(Next(s, a))
  {
    FreshName(s);
    HandlesKept(s, a);
    forall c | c in Next(s, a).sessions
      ensures JoinsHeard(Next(s, a).sessions[c])
    {
      if c in s.sessions {
        SessionMoves(s, a, c);
        if Active(s.sessions[c]) {
          CreationStep(s, a, c);
          JoinsHeardActive(s.sessions[c], Next(s, a).sessions[c]);
        } else {
          JoinsHeardIdle(s.sessions[c], Next(s, a).sessions[c]);
        }
      }
    }
  }

  /** Under every interleaving, every join that has ended has got into its room's queue: it never misses a room. */
  lemma {:induction false} JoinsAlwaysHeard(trace: seq<Action>)
    ensures SessionsOk(Exec(trace)) && AllJoinsHeard(Exec(trace))
  {
    ExecServerOk(trace);
    if trace != [] {
      var before, a := trace[..|trace| - 1], trace[|trace| - 1];
      JoinsAlwaysHeard(before);
      ExecServerOk(before);
      NextJoinsHeard(Exec(before), a);
    }
  }

  /** Some session has issued a join to the room. */
  ghost predicate AskedFor(s: Sys, room: RoomId) {
    exists c, d :: c in s.sessions && d in s.sessions[c].issued && d.room == room && d.command.Join?
  }

  lemma AskedForGrows(s: Sys, a: Action, room: RoomId)
    requires NamesOk(s) && AskedFor(s, room)
    ensures AskedFor(Next(s, a), room)
  {
    FreshName(s);
    var c, d :| c in s.sessions && d in s.sessions[c].issued && d.room == room && d.command.Join?;
    SessionMoves(s, a, c);
    IssuedGrows(s.sessions[c], Next(s, a).sessions[c], d);
  }

  lemma IssuedGrows(before: Session, after: Session, d: Dispatch)
    requires Moves(before, after) && d in before.issued
    ensures d in after.issued
  {
  }

  /** A room that is new to the registry was asked for by the session that created it. */
  lemma CreatedAsked(s: Sys, a: Action, room: RoomId)
    requires SessionsOk(s) && AllJoinsHeard(s) && room in Next(s, a).registry && room !in s.registry
    ensures AskedFor(s, room)
  {
    var me := s.sessions[a.c];
    assert me.issued[|me.delivered|] == me.pc.dispatch;
  }

  /** Only a join ever creates a room. */
  lemma {:induction false} OnlyJoinsCreate(trace: seq<Action>, room: RoomId)
    requires room in Exec(trace).registry
    ensures AskedFor(Exec(trace), room)
  {
    assert trace != [];
    var before, a := trace[..|trace| - 1], trace[|trace| - 1];
    ExecServerOk(before);
    JoinsAlwaysHeard(before);
    if room in Exec(before).registry {
      OnlyJoinsCreate(before, room);
    } else {
      CreatedAsked(Exec(before), a, room);
    }
    AskedForGrows(Exec(before), a, room);
  }
}
