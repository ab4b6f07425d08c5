// The server can always go on unless it waits for the rule engine alone, and left
// alone it comes to that point; if the rule engine answers, it comes to rest. No
// deadlock arises between the registry's lock, full queues and suspended tasks
// (src/room.rs:238-299, 683, src/ws.rs:39-107, src/engine.rs:70-90).
module Progress {
  import opened Protocol
  import opened Server
  import opened Interleavings
  import opened Sessions
  import opened Quiescence

  /** What happens without the clients: no new connection, no client frame, no closing socket. */
  predicate Internal(a: Action) {
    !a.Connect? && !a.ReceiveFrame? && !a.CloseSocket?
  }

  /** What the server does by itself: the rule engine's answers come from outside, and may never come. */
  predicate Own(a: Action) {
    Internal(a) && !a.EngineAnswers?
  }

  /** No session is in the middle of a dispatch, and no task has anything to do. */
  ghost predicate Settled(s: Sys) {
    && (forall c | c in s.sessions :: !Active(s.sessions[c]))
    && (forall q: nat | q < |s.tasks| :: s.tasks[q].queue == [] && s.tasks[q].awaiting.None?)
  }

  /** A session that can only wait: its queue is full, and the room task is suspended. */
  predicate Blocked(s: Sys, session: Session) {
    && session.pc.Enqueueing? && session.pc.queue < |s.tasks|
    && |s.tasks[session.pc.queue].queue| >= ROOM_COMMAND_BUFFER
    && s.tasks[session.pc.queue].awaiting.Some?
  }

  /**
   * Nothing is left but answers of the rule engine, if anything is: every task is
   * suspended or has an empty queue, and every active session is blocked by one.
   */
  ghost predicate AwaitsEngine(s: Sys) {
    && (forall q: nat | q < |s.tasks| :: s.tasks[q].awaiting.Some? || s.tasks[q].queue == [])
    && (forall c | c in s.sessions && Active(s.sessions[c]) :: Blocked(s, s.sessions[c]))
  }

  /** To be settled is to await the rule engine with no call under way. */
  lemma SettledIff(s: Sys)
    ensures Settled(s) <==> AwaitsEngine(s) && forall q: nat | q < |s.tasks| :: s.tasks[q].awaiting.None?
  {
  }

  // ---------- something can always happen ----------

  /** A task that is not suspended takes its next command. */
  lemma FreeTaskMoves(s: Sys, q: QueueId) returns (a: Action)
    requires q < |s.tasks| && s.tasks[q].queue != [] && s.tasks[q].awaiting.None?
    ensures Own(a) && Next(s, a) != s
  {
    a := Dequeue(q, Inputs(_ => 0, CallFailed));
    assert |Next(s, a).tasks[q].queue| < |s.tasks[q].queue|;
  }

  /** A suspended task goes on when it is answered. */
  lemma SuspendedTaskMoves(s: Sys, q: QueueId) returns (a: Action)
    requires q < |s.tasks| && s.tasks[q].awaiting.Some?
    ensures Internal(a) && Next(s, a) != s
  {
    a := EngineAnswers(q, Inputs(_ => 0, CallFailed));
    assert Next(s, a).tasks[q].awaiting.None?;
  }

  /** Whoever holds the lock can go on. */
  lemma HolderMoves(s: Sys, c: ConnectionId) returns (a: Action)
    requires c in s.sessions && (HoldsWrite(s.sessions[c]) || s.sessions[c].pc.ReadLocked?)
    ensures Own(a) && Next(s, a) != s
  {
    var pc := s.sessions[c].pc;
    a := if pc.ReadLocked? then Lookup(c) else if pc.WriteLocked? then Recheck(c) else Create(c);
    assert Next(s, a).sessions[c].pc != pc;
  }

  /** While the lock is free, a session that wants it gets it. */
  lemma WaiterMoves(s: Sys, c: ConnectionId) returns (a: Action)
    requires c in s.sessions && (s.sessions[c].pc.Looking? || s.sessions[c].pc.AwaitingWrite?)
    requires s.writer.None? && s.readers == {}
    ensures Own(a) && Next(s, a) != s
  {
    a := if s.sessions[c].pc.Looking? then LockRead(c) else LockWrite(c);
    assert Next(s, a).sessions[c].pc != s.sessions[c].pc;
  }

  /** A session whose queue has room enqueues its command. */
  lemma SenderMoves(s: Sys, c: ConnectionId) returns (a: Action)
    requires c in s.sessions && s.sessions[c].pc.Enqueueing? && s.sessions[c].pc.queue < |s.tasks|
    requires |s.tasks[s.sessions[c].pc.queue].queue| < ROOM_COMMAND_BUFFER
    ensures Own(a) && Next(s, a) != s
  {
    a := Enqueue(c);
    assert Next(s, a).sessions[c].pc != s.sessions[c].pc;
  }

  /** An active session that is not blocked lets something happen, while no task can. */
  lemma SessionMovesOn(s: Sys, c: ConnectionId) returns (a: Action)
    requires RegistryInv(s) && c in s.sessions && Active(s.sessions[c]) && !Blocked(s, s.sessions[c])
    requires forall q: nat | q < |s.tasks| :: s.tasks[q].awaiting.Some? || s.tasks[q].queue == []
    ensures Own(a) && Next(s, a) != s
  {
    if s.writer.Some? {
      a := HolderMoves(s, s.writer.value);
    } else if d :| d in s.readers {
      a := HolderMoves(s, d);
    } else if s.sessions[c].pc.Enqueueing? {
      a := SenderMoves(s, c);
    } else {
      a := WaiterMoves(s, c);
    }
  }

  lemma OwnStep(trace: seq<Action>) returns (a: Action)
    requires !AwaitsEngine(Exec(trace))
    ensures Own(a) && Next(Exec(trace), a) != Exec(trace)
  {
    var s := Exec(trace);
    ExecRegistryInv(trace);
    if q: nat :| q < |s.tasks| && s.tasks[q].queue != [] && s.tasks[q].awaiting.None? {
      a := FreeTaskMoves(s, q);
    } else {
      var c :| c in s.sessions && Active(s.sessions[c]) && !Blocked(s, s.sessions[c]);
      a := SessionMovesOn(s, c);
    }
  }

  /** Where only the rule engine is awaited, no step of the server's own does anything. */
  lemma NoOwnStep(s: Sys, a: Action)
    requires AwaitsEngine(s) && Own(a)
    ensures Next(s, a) == s
  {
    if a.Dequeue? {
      if a.q < |s.tasks| {
        assert s.tasks[a.q := s.tasks[a.q]] == s.tasks;
      }
    } else if a.c in s.sessions && Active(s.sessions[a.c]) {
      assert Blocked(s, s.sessions[a.c]);
    }
  }

  /** In every reachable state the server has a step of its own if and only if it does not await the rule engine alone. */
  lemma OwnStepIff(trace: seq<Action>)
    ensures (exists a :: Own(a) && Next(Exec(trace), a) != Exec(trace)) <==> !AwaitsEngine(Exec(trace))
  {
    if AwaitsEngine(Exec(trace)) {
      forall a | Own(a)
        ensures Next(Exec(trace), a) == Exec(trace)
      {
        NoOwnStep(Exec(trace), a);
      }
    } else {
      var a := OwnStep(trace);
    }
  }

  /** In every reachable state that is not settled, something happens if the rule engine answers. */
  lemma NeverStuck(trace: seq<Action>) returns (a: Action)
    requires !Settled(Exec(trace))
    ensures Internal(a) && Next(Exec(trace), a) != Exec(trace)
  {
    if AwaitsEngine(Exec(trace)) {
      SettledIff(Exec(trace));
      var q: nat :| q < |Exec(trace).tasks| && Exec(trace).tasks[q].awaiting.Some?;
      a := SuspendedTaskMoves(Exec(trace), q);
    } else {
      a := OwnStep(trace);
    }
  }

  // ---------- it cannot go on for ever ----------

  /** How many steps of its own a session can still cause, its command's included. */
  function PcRank(pc: Pc): nat {
    match pc
    case Idle => 0
    case Looking(_) => 8
    case ReadLocked(_) => 7
    case AwaitingWrite(_) => 6
    case WriteLocked(_) => 5
    case Creating(_) => 4
    case Enqueueing(_, _) => 3
    case Closed => 0
  }

  function TaskRank(task: Task): nat {
    2 * |task.queue| + if task.awaiting.Some? then 1 else 0
  }

  function TasksRank(tasks: seq<Task>): nat {
    if tasks == [] then 0 else TasksRank(tasks[..|tasks| - 1]) + TaskRank(tasks[|tasks| - 1])
  }

  /** Connections are numbered, so their ranks can be added up in order. */
  function SessionsRank(sessions: map<ConnectionId, Session>, n: nat): nat {
    if n == 0 then 0
    else
      var c := ConnectionName(n - 1);
      SessionsRank(sessions, n - 1) + if c in sessions then PcRank(sessions[c].pc) else 0
  }

  function Rank(s: Sys): nat {
    SessionsRank(s.sessions, s.nextConnection) + TasksRank(s.tasks)
  }

  lemma {:induction false} TasksRankUpdate(tasks: seq<Task>, q: nat, task: Task)
    requires q < |tasks|
    ensures TasksRank(tasks[q := task]) == TasksRank(tasks) - TaskRank(tasks[q]) + TaskRank(task)
  {
    var last := |tasks| - 1;
    if q < last {
      TasksRankUpdate(tasks[..last], q, task);
      assert tasks[q := task][..last] == tasks[..last][q := task];
    } else {
      assert tasks[q := task][..last] == tasks[..last];
    }
  }

  lemma {:induction false} SessionsRankUpdate(sessions: map<ConnectionId, Session>, k: nat, session: Session, n: nat)
    requires ConnectionName(k) in sessions
    ensures SessionsRank(sessions[ConnectionName(k) := session], n)
         == SessionsRank(sessions, n)
            + if k < n then PcRank(session.pc) - PcRank(sessions[ConnectionName(k)].pc) else 0
  {
    if n > 0 {
      SessionsRankUpdate(sessions, k, session, n - 1);
      if ConnectionName(n - 1) == ConnectionName(k) {
        SameName(n - 1, k);
      }
    }
  }

  /** A session's step changes the rank by what it does to that session. */
  lemma SessionStepRank(s: Sys, t: Sys, c: ConnectionId, session: Session)
    requires NamesOk(s) && c in s.sessions && t.sessions == s.sessions[c := session]
    requires t.nextConnection == s.nextConnection
    ensures Rank(t) - TasksRank(t.tasks) == Rank(s) - TasksRank(s.tasks) - PcRank(s.sessions[c].pc) + PcRank(session.pc)
  {
    SessionsRankUpdate(s.sessions, s.sessions[c].handle.outboundTx, session, s.nextConnection);
  }

  lemma ReaderStepRank(s: Sys, c: ConnectionId)
    requires NamesOk(s) && c in s.sessions
    ensures DoLockRead(s, c) != s ==> Rank(DoLockRead(s, c)) < Rank(s)
    ensures DoLookup(s, c) != s ==> Rank(DoLookup(s, c)) < Rank(s)
  {
    if DoLockRead(s, c) != s {
      SessionStepRank(s, DoLockRead(s, c), c, DoLockRead(s, c).sessions[c]);
    }
    if DoLookup(s, c) != s {
      SessionStepRank(s, DoLookup(s, c), c, DoLookup(s, c).sessions[c]);
    }
  }

  lemma WriterStepRank(s: Sys, c: ConnectionId)
    requires NamesOk(s) && c in s.sessions
    ensures DoLockWrite(s, c) != s ==> Rank(DoLockWrite(s, c)) < Rank(s)
    ensures DoRecheck(s, c) != s ==> Rank(DoRecheck(s, c)) < Rank(s)
  {
    if DoLockWrite(s, c) != s {
      SessionStepRank(s, DoLockWrite(s, c), c, DoLockWrite(s, c).sessions[c]);
    }
    if DoRecheck(s, c) != s {
      SessionStepRank(s, DoRecheck(s, c), c, DoRecheck(s, c).sessions[c]);
    }
  }

  lemma CreateRank(s: Sys, c: ConnectionId)
    requires NamesOk(s) && c in s.sessions && DoCreate(s, c) != s
    ensures Rank(DoCreate(s, c)) < Rank(s)
  {
    var t := DoCreate(s, c);
    SessionStepRank(s, t, c, t.sessions[c]);
    assert t.tasks[..|s.tasks|] == s.tasks;
  }

  lemma EnqueueRank(s: Sys, c: ConnectionId)
    requires NamesOk(s) && c in s.sessions && DoEnqueue(s, c) != s
    ensures Rank(DoEnqueue(s, c)) < Rank(s)
  {
    var t, q := DoEnqueue(s, c), s.sessions[c].pc.queue;
    SessionStepRank(s, t, c, t.sessions[c]);
    TasksRankUpdate(s.tasks, q, t.tasks[q]);
  }

  lemma TaskStepRank(s: Sys, q: QueueId, task: Task)
    requires q < |s.tasks| && task != s.tasks[q]
    requires exists inputs :: task == Take(s.tasks[q], inputs) || task == Resume(s.tasks[q], inputs)
    ensures Rank(s.(tasks := s.tasks[q := task])) < Rank(s)
  {
    TasksRankUpdate(s.tasks, q, task);
  }

  /**
   * Every step without the clients uses up some of the server's rank: whatever
   * the schedule, at most Rank(s) of them can follow a state s.
   */
  lemma InternalStepsRunOut(s: Sys, a: Action)
    requires NamesOk(s) && Internal(a) && Next(s, a) != s
    ensures Rank(Next(s, a)) < Rank(s)
  {
    match a {
      case LockRead(c) => ReaderStepRank(s, c);
      case Lookup(c) => ReaderStepRank(s, c);
      case LockWrite(c) => WriterStepRank(s, c);
      case Recheck(c) => WriterStepRank(s, c);
      case Create(c) => CreateRank(s, c);
      case Enqueue(c) => EnqueueRank(s, c);
      case Dequeue(q, inputs) =>
        assert Take(s.tasks[q], inputs) != s.tasks[q] by { assert s.tasks[q := s.tasks[q]] == s.tasks; }
        TaskStepRank(s, q, Take(s.tasks[q], inputs));
      case EngineAnswers(q, inputs) =>
        assert Resume(s.tasks[q], inputs) != s.tasks[q] by { assert s.tasks[q := s.tasks[q]] == s.tasks; }
        TaskStepRank(s, q, Resume(s.tasks[q], inputs));
    }
  }

  lemma OneStepOn(trace: seq<Action>) returns (a: Action)
    requires !Settled(Exec(trace))
    ensures Internal(a) && Rank(Exec(trace + [a])) < Rank(Exec(trace))
  {
    a := NeverStuck(trace);
    ExecRegistryInv(trace);
    InternalStepsRunOut(Exec(trace), a);
    assert (trace + [a])[..|trace|] == trace;
  }

  lemma RestAfterStep(trace: seq<Action>, a: Action, rest: seq<Action>)
    requires Settled(Exec(trace + [a] + rest))
    ensures Settled(Exec(trace + ([a] + rest)))
  {
    assert trace + [a] + rest == trace + ([a] + rest);
  }

  lemma OneOwnStepOn(trace: seq<Action>) returns (a: Action)
    requires !AwaitsEngine(Exec(trace))
    ensures Own(a) && Rank(Exec(trace + [a])) < Rank(Exec(trace))
  {
    a := OwnStep(trace);
    ExecRegistryInv(trace);
    InternalStepsRunOut(Exec(trace), a);
    assert (trace + [a])[..|trace|] == trace;
  }

  lemma AwaitsAfterStep(trace: seq<Action>, a: Action, rest: seq<Action>)
    requires AwaitsEngine(Exec(trace + [a] + rest))
    ensures AwaitsEngine(Exec(trace + ([a] + rest)))
  {
    assert trace + [a] + rest == trace + ([a] + rest);
  }

  /** Left alone, the server comes by its own steps to where it awaits the rule engine alone, if anything. */
  lemma {:induction false} ComesToTheEngine(trace: seq<Action>) returns (more: seq<Action>)
    ensures forall a | a in more :: Own(a)
    ensures |more| <= Rank(Exec(trace)) && AwaitsEngine(Exec(trace + more))
    decreases Rank(Exec(trace))
  {
    if AwaitsEngine(Exec(trace)) {
      more := [];
      assert trace + more == trace;
    } else {
      var a := OneOwnStepOn(trace);
      var rest := ComesToTheEngine(trace + [a]);
      AwaitsAfterStep(trace, a, rest);
      more := [a] + rest;
    }
  }

  /** If the rule engine answers, the server settles: a settled state can be reached from every reachable one. */
  lemma {:induction false} ComesToRest(trace: seq<Action>) returns (more: seq<Action>)
    ensures forall a | a in more :: Internal(a)
    ensures |more| <= Rank(Exec(trace)) && Settled(Exec(trace + more))
    decreases Rank(Exec(trace))
  {
    if Settled(Exec(trace)) {
      more := [];
      assert trace + more == trace;
    } else {
      var a := OneStepOn(trace);
      var rest := ComesToRest(trace + [a]);
      RestAfterStep(trace, a, rest);
      more := [a] + rest;
    }
  }

  // ---------- when every socket has closed ----------

  /** The socket is gone; at most the disconnect is still on its way. */
  predicate Closing(session: Session) {
    session.pc.Closed? || (Active(session) && session.pc.dispatch.command.Disconnect?)
  }

  /** Some sessions are closing, and nobody issues anything any more. */
  ghost predicate Emptied(s: Sys, t: Sys) {
    && t.sessions.Keys == s.sessions.Keys
    && forall c | c in s.sessions :: Closing(t.sessions[c]) && t.sessions[c].issued == s.sessions[c].issued
  }

  lemma InternalKeepsClosing(t: Sys, a: Action, c: ConnectionId)
    requires Internal(a) && c in t.sessions && Closing(t.sessions[c])
    ensures c in Next(t, a).sessions
    ensures Closing(Next(t, a).sessions[c]) && Next(t, a).sessions[c].issued == t.sessions[c].issued
  {
  }

  lemma InternalKeepsEmptied(s: Sys, t: Sys, a: Action)
    requires Emptied(s, t) && Internal(a)
    ensures Emptied(s, Next(t, a))
  {
    HandlesKept(t, a);
    forall c | c in t.sessions
      ensures Closing(Next(t, a).sessions[c]) && Next(t, a).sessions[c].issued == t.sessions[c].issued
    {
      InternalKeepsClosing(t, a, c);
    }
  }

  lemma {:induction false} RunKeepsEmptied(trace: seq<Action>, more: seq<Action>)
    requires Emptied(Exec(trace), Exec(trace)) && forall a | a in more :: Internal(a)
    ensures Emptied(Exec(trace), Exec(trace + more))
  {
    if more == [] {
      assert trace + more == trace;
    } else {
      var last := |more| - 1;
      RunKeepsEmptied(trace, more[..last]);
      assert (trace + more)[..|trace + more| - 1] == trace + more[..last];
      InternalKeepsEmptied(Exec(trace), Exec(trace + more[..last]), more[last]);
    }
  }

  lemma EmptiedIsQuiet(s: Sys, t: Sys)
    requires Emptied(s, t) && Settled(t)
    requires forall c | c in s.sessions :: OneRoom(s.sessions[c]) && OneUser(s.sessions[c])
    ensures Quiet(t) && forall c | c in t.sessions :: OneRoom(t.sessions[c]) && OneUser(t.sessions[c])
  {
  }

  /**
   * Once every socket is gone and if the rule engine answers, the server comes to
   * a state in which, if each session named one room and one user throughout its
   * life, no room has a registered connection or a connected slot left.
   */
  lemma EveryoneIsGoneInTheEnd(trace: seq<Action>) returns (more: seq<Action>)
    requires forall c | c in Exec(trace).sessions ::
               Closing(Exec(trace).sessions[c]) && OneRoom(Exec(trace).sessions[c]) && OneUser(Exec(trace).sessions[c])
    ensures (forall a | a in more :: Internal(a)) && Quiet(Exec(trace + more))
    ensures forall q: nat | q < |Exec(trace + more).tasks| ::
              Deserted(Exec(trace + more).tasks[q].room.core)
  {
    more := ComesToRest(trace);
    RunKeepsEmptied(trace, more);
    EmptiedIsQuiet(Exec(trace), Exec(trace + more));
    forall q: nat | q < |Exec(trace + more).tasks|
      ensures Deserted(Exec(trace + more).tasks[q].room.core)
    {
      AllQuietOnEveryRoom(trace + more, q);
    }
  }
}
