// What it means to await the rule engine: the server's own steps lead nowhere
// from there, and such a state is reached by one client (src/room.rs:683).
module Suspension {
  import opened Wrappers
  import opened Protocol
  import opened RoomSpec
  import opened RoomCore
  import opened Server
  import opened Desertion
  import opened Progress

  /** Whatever the server does by itself while it awaits the rule engine alone, it stays exactly where it is. */
  lemma {:induction false} StaysWaiting(s: Sys, more: seq<Action>)
    requires AwaitsEngine(s) && forall a | a in more :: Own(a)
    ensures RunOn(s, more) == s
    decreases |more|
  {
    if more != [] {
      NoOwnStep(s, more[0]);
      StaysWaiting(s, more[1..]);
    }
  }

  // ---------- one client that passes ----------

  /** A pass in the room's first round. */
  function PassIn(room: RoomId): ActionRequest {
    ActionRequest(room, MatchId(room), RoundId(1), 0, 0, Some(Pass(0)))
  }

  lemma PassAsksEngine(room: RoomId, entry: Entry, c: ConnectionId)
    requires entry.command.Join? && entry.command.connection.connectionId == c
    ensures AsksEngine(Step(NewRoom(room), entry), PlayerAction("", c, PassIn(room)))
  {
    StepCore(NewRoom(room), entry);
    var core := Enroll(NewCore(room), entry.command.connection, entry.command.join, East);
    assert Step(NewRoom(room), entry).core == core;
    assert Screen(core, c, PassIn(room)) == Submit(East, Pass(0));
  }

  /** The server after its only session has joined and been seated. */
  function SeatedOne(c: ConnectionId, a: JoinRequest, inputs: Inputs): Sys {
    var task := Push(NewTask(a.roomId), JoinOf(c, a).command);
    Alone(c, map[a.roomId := 0], [Handle(task.(queue := []), Entry(JoinOf(c, a).command, inputs))], Some(a.roomId),
          Idle, [JoinOf(c, a)], [true])
  }

  lemma JoinHandled(c: ConnectionId, a: JoinRequest, inputs: Inputs)
    ensures Next(InOne(c, a), Dequeue(0, inputs)) == SeatedOne(c, a, inputs)
  {
    TakesPlain(InOne(c, a), 0, inputs);
    assert InOne(c, a).tasks[0].queue[1..] == [];
  }

  function PassOf(c: ConnectionId, a: JoinRequest): Dispatch {
    Dispatch(a.roomId, PlayerAction("", c, PassIn(a.roomId)))
  }

  function Passes(c: ConnectionId, a: JoinRequest): seq<Action> {
    [ReceiveFrame(c, ActionFrame("", PassIn(a.roomId)))] + LookUp(c) + [Enqueue(c)]
  }

  lemma PassQueued(c: ConnectionId, a: JoinRequest, inputs: Inputs)
    ensures var s := SeatedOne(c, a, inputs);
            RunOn(s, Passes(c, a)) == InQueue(s, c, s.sessions[c], PassOf(c, a), 0)
  {
    var s, first := SeatedOne(c, a, inputs), ReceiveFrame(c, ActionFrame("", PassIn(a.roomId)));
    var session, d := s.sessions[c], PassOf(c, a);
    RunOnConcat(s, [first] + LookUp(c), [Enqueue(c)]);
    RunOnConcat(s, [first], LookUp(c));
    RunOnOne(s, first);
    assert Next(s, first) == Put(s, c, Under(session, d, Looking(d)));
    LooksUp(s, c, session, d);
    RunOnOne(Put(s, c, Under(session, d, Enqueueing(d, 0))), Enqueue(c));
    PutsInQueue(s, c, session, d, 0);
  }

  /** With the pass taken, the room task is suspended and nothing else is left to do. */
  lemma PassSuspends(c: ConnectionId, a: JoinRequest, inputs: Inputs)
    ensures var s := SeatedOne(c, a, inputs);
            var t := Next(InQueue(s, c, s.sessions[c], PassOf(c, a), 0), Dequeue(0, inputs));
            AwaitsEngine(t) && !Settled(t)
  {
    var s := SeatedOne(c, a, inputs);
    var u := InQueue(s, c, s.sessions[c], PassOf(c, a), 0);
    PassAsksEngine(a.roomId, Entry(JoinOf(c, a).command, inputs), c);
    assert u.tasks[0].queue == [PassOf(c, a).command];
    assert Next(u, Dequeue(0, inputs)).tasks[0].awaiting.Some?;
    assert |Next(u, Dequeue(0, inputs)).tasks| == 1;
  }

  /**
   * One client that joins and passes brings the server to a state that is not
   * settled and that none of the server's own steps ever leaves: the room waits as
   * long as the rule engine is silent.
   */
  lemma SilentEngine(a: JoinRequest) returns (trace: seq<Action>)
    ensures AwaitsEngine(Exec(trace)) && !Settled(Exec(trace))
    ensures forall more | (forall b | b in more :: Own(b)) :: Exec(trace + more) == Exec(trace)
  {
    var c, inputs := ConnectionName(1), Inputs(_ => 0, CallFailed);
    trace := [Connect] + JoinNew(c, a) + [Dequeue(0, inputs)] + Passes(c, a) + [Dequeue(0, inputs)];
    SuspendedRun(c, a, inputs);
    PassSuspends(c, a, inputs);
    forall more | forall b | b in more :: Own(b)
      ensures Exec(trace + more) == Exec(trace)
    {
      ExecRunOn(trace, more);
      StaysWaiting(Exec(trace), more);
    }
  }

  lemma SuspendedRun(c: ConnectionId, a: JoinRequest, inputs: Inputs)
    requires c == ConnectionName(1)
    ensures var s := SeatedOne(c, a, inputs);
            Exec([Connect] + JoinNew(c, a) + [Dequeue(0, inputs)] + Passes(c, a) + [Dequeue(0, inputs)])
            == Next(InQueue(s, c, s.sessions[c], PassOf(c, a), 0), Dequeue(0, inputs))
  {
    var joined, seated := [Connect] + JoinNew(c, a), [Connect] + JoinNew(c, a) + [Dequeue(0, inputs)];
    var passed := seated + Passes(c, a);
    RunOnOne(Start, Connect);
    assert Next(Start, Connect) == Connected(c);
    RunOnConcat(Start, [Connect], JoinNew(c, a));
    JoinsOne(c, a);
    RunOnConcat(Start, joined, [Dequeue(0, inputs)]);
    RunOnOne(InOne(c, a), Dequeue(0, inputs));
    JoinHandled(c, a, inputs);
    RunOnConcat(Start, seated, Passes(c, a));
    PassQueued(c, a, inputs);
    RunOnConcat(Start, passed, [Dequeue(0, inputs)]);
    RunOnOne(RunOn(Start, passed), Dequeue(0, inputs));
    ExecRunOn([], passed + [Dequeue(0, inputs)]);
    assert [] + (passed + [Dequeue(0, inputs)]) == passed + [Dequeue(0, inputs)];
  }
}
