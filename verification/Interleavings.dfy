// What every interleaving of the server keeps: the registry and its lock, the
// queues, and the refinement of each room task to a sequential run
// (src/room.rs:238-299, 377-401).
module Interleavings {
  import opened Wrappers
  import opened Protocol
  import opened RoomSpec
  import opened RoomCore
  import opened Server

  // ---------- the registry and its lock ----------

  predicate HoldsWrite(session: Session) {
    session.pc.WriteLocked? || session.pc.Creating?
  }

  /** Every registered room has its task, and every task is registered: one task per room. */
  ghost predicate RegistryOk(s: Sys) {
    && (forall r | r in s.registry :: s.registry[r] < |s.tasks| && s.tasks[s.registry[r]].roomId == r)
    && (forall q: nat | q < |s.tasks| :: s.tasks[q].roomId in s.registry && s.registry[s.tasks[q].roomId] == q)
  }

  /** Connections are named by a counter, each with a channel of its own. */
  ghost predicate NamesOk(s: Sys) {
    forall c | c in s.sessions ::
      && s.sessions[c].handle.connectionId == c
      && s.sessions[c].handle.outboundTx < s.nextConnection
      && c == ConnectionName(s.sessions[c].handle.outboundTx)
  }

  lemma FreshName(s: Sys)
    requires NamesOk(s)
    ensures ConnectionName(s.nextConnection) == "conn-" + Decimal(s.nextConnection)
    ensures ConnectionName(s.nextConnection) !in s.sessions
  {
    var c := ConnectionName(s.nextConnection);
    if c in s.sessions {
      SameName(s.sessions[c].handle.outboundTx, s.nextConnection);
    }
  }

  lemma SameName(m: nat, n: nat)
    requires ConnectionName(m) == ConnectionName(n)
    ensures m == n
  {
    assert ConnectionName(m)[5..] == Decimal(m) && ConnectionName(n)[5..] == Decimal(n);
    DecimalInjective(m, n);
  }

  /** The lock is held by exactly the sessions that stand inside it, and never by a reader and a writer at once. */
  ghost predicate LockOk(s: Sys) {
    && (forall c | c in s.sessions && HoldsWrite(s.sessions[c]) :: s.writer == Some(c))
    && (s.writer.Some? ==> s.writer.value in s.sessions && HoldsWrite(s.sessions[s.writer.value]) && s.readers == {})
    && (forall c | c in s.sessions && s.sessions[c].pc.ReadLocked? :: c in s.readers)
    && (forall c | c in s.readers :: c in s.sessions && s.sessions[c].pc.ReadLocked?)
  }

  /** A session about to create a room still finds it missing. */
  ghost predicate CreatorsOk(s: Sys) {
    forall c | c in s.sessions && s.sessions[c].pc.Creating? :: s.sessions[c].pc.dispatch.room !in s.registry
  }

  /** A session that has a queue has the registered queue of its room. */
  ghost predicate SendersOk(s: Sys) {
    forall c | c in s.sessions && s.sessions[c].pc.Enqueueing? ::
      && s.sessions[c].pc.dispatch.room in s.registry
      && s.registry[s.sessions[c].pc.dispatch.room] == s.sessions[c].pc.queue
  }

  ghost predicate RegistryInv(s: Sys) {
    NamesOk(s) && RegistryOk(s) && LockOk(s) && CreatorsOk(s) && SendersOk(s)
  }

  /** Only Connect adds a session, and no action changes a session's handle. */
  lemma HandlesKept(s: Sys, a: Action)
    ensures !a.Connect? ==> Next(s, a).sessions.Keys == s.sessions.Keys && Next(s, a).nextConnection == s.nextConnection
    ensures !a.Connect? ==> forall c | c in s.sessions :: Next(s, a).sessions[c].handle == s.sessions[c].handle
  {
  }

  lemma NextNamesOk(s: Sys, a: Action)
    requires NamesOk(s)
    ensures NamesOk(Next(s, a))
  {
    HandlesKept(s, a);
  }

  lemma OthersKeepRegistry(s: Sys, a: Action)
    requires !a.Create?
    ensures Next(s, a).registry == s.registry && |Next(s, a).tasks| == |s.tasks|
    ensures forall q: nat | q < |s.tasks| :: Next(s, a).tasks[q].roomId == s.tasks[q].roomId
  {
  }

  lemma CreateRegistryOk(s: Sys, c: ConnectionId)
    requires RegistryOk(s) && CreatorsOk(s) && c in s.sessions
    ensures RegistryOk(DoCreate(s, c))
  {
  }

  lemma NextRegistryOk(s: Sys, a: Action)
    requires RegistryOk(s) && CreatorsOk(s)
    ensures RegistryOk(Next(s, a))
  {
    if a.Create? {
      if a.c in s.sessions { CreateRegistryOk(s, a.c); }
    } else {
      OthersKeepRegistry(s, a);
    }
  }

  lemma ConnectLockOk(s: Sys)
    requires NamesOk(s) && LockOk(s)
    ensures LockOk(DoConnect(s))
  {
    FreshName(s);
  }

  lemma ReadersLockOk(s: Sys, c: ConnectionId)
    requires LockOk(s) && c in s.sessions
    ensures LockOk(DoLockRead(s, c)) && LockOk(DoLookup(s, c))
  {
  }

  lemma WriterLockOk(s: Sys, c: ConnectionId)
    requires LockOk(s) && c in s.sessions
    ensures LockOk(DoLockWrite(s, c)) && LockOk(DoRecheck(s, c))
  {
  }

  lemma CreateLockOk(s: Sys, c: ConnectionId)
    requires LockOk(s) && c in s.sessions
    ensures LockOk(DoCreate(s, c)) && LockOk(DoEnqueue(s, c))
  {
  }

  lemma OutsideLockOk(s: Sys, c: ConnectionId, after: Session)
    requires LockOk(s) && c in s.sessions && s.sessions[c].pc.Idle?
    requires !HoldsWrite(after) && !after.pc.ReadLocked?
    ensures LockOk(Put(s, c, after))
  {
  }

  lemma NextLockOk(s: Sys, a: Action)
    requires NamesOk(s) && LockOk(s)
    ensures LockOk(Next(s, a))
  {
    match a {
      case Connect => ConnectLockOk(s);
      case ReceiveFrame(c, frame) =>
        if c in s.sessions && s.sessions[c].pc.Idle? { OutsideLockOk(s, c, Receive(s.sessions[c], frame)); }
      case CloseSocket(c) =>
        if c in s.sessions && s.sessions[c].pc.Idle? { OutsideLockOk(s, c, Close(s.sessions[c])); }
      case LockRead(c) => if c in s.sessions { ReadersLockOk(s, c); }
      case Lookup(c) => if c in s.sessions { ReadersLockOk(s, c); }
      case LockWrite(c) => if c in s.sessions { WriterLockOk(s, c); }
      case Recheck(c) => if c in s.sessions { WriterLockOk(s, c); }
      case Create(c) => if c in s.sessions { CreateLockOk(s, c); }
      case Enqueue(c) => if c in s.sessions { CreateLockOk(s, c); }
      case Dequeue(_, _) =>
      case EngineAnswers(_, _) =>
    }
  }

  lemma NextCreatorsOk(s: Sys, a: Action)
    requires LockOk(s) && CreatorsOk(s)
    ensures CreatorsOk(Next(s, a))
  {
  }

  lemma NextSendersOk(s: Sys, a: Action)
    requires RegistryOk(s) && SendersOk(s) && CreatorsOk(s)
    ensures SendersOk(Next(s, a))
  {
  }

  lemma {:induction false} ExecRegistryInv(trace: seq<Action>)
    ensures RegistryInv(Exec(trace))
  {
    if trace != [] {
      var last := |trace| - 1;
      var s, a := Exec(trace[..last]), trace[last];
      ExecRegistryInv(trace[..last]);
      NextNamesOk(s, a);
      NextRegistryOk(s, a);
      NextLockOk(s, a);
      NextCreatorsOk(s, a);
      NextSendersOk(s, a);
    }
  }

  /** At most one task is ever spawned for a room. */
  lemma OneTaskPerRoom(trace: seq<Action>, p: QueueId, q: QueueId)
    requires var s := Exec(trace);
             p < |s.tasks| && q < |s.tasks| && s.tasks[p].roomId == s.tasks[q].roomId
    ensures p == q
  {
    ExecRegistryInv(trace);
  }

  /** No two sessions are ever both about to create a room. */
  lemma OneCreator(trace: seq<Action>, c: ConnectionId, d: ConnectionId)
    requires var s := Exec(trace);
             c in s.sessions && d in s.sessions && HoldsWrite(s.sessions[c]) && HoldsWrite(s.sessions[d])
    ensures c == d
  {
    ExecRegistryInv(trace);
  }

  lemma NextKeepsRegistry(s: Sys, a: Action)
    requires CreatorsOk(s)
    ensures forall r | r in s.registry :: r in Next(s, a).registry && Next(s, a).registry[r] == s.registry[r]
  {
  }

  /** No registry entry is ever removed or replaced. */
  lemma {:induction false} RegistryOnlyGrows(trace: seq<Action>, more: seq<Action>, room: RoomId)
    requires room in Exec(trace).registry
    ensures room in Exec(trace + more).registry && Exec(trace + more).registry[room] == Exec(trace).registry[room]
  {
    if more == [] {
      assert trace + more == trace;
    } else {
      var last := |more| - 1;
      assert (trace + more)[..|trace + more| - 1] == trace + more[..last];
      RegistryOnlyGrows(trace, more[..last], room);
      ExecRegistryInv(trace + more[..last]);
      NextKeepsRegistry(Exec(trace + more[..last]), more[last]);
    }
  }

  /** All callers for one room get the same queue, however far apart their calls are. */
  lemma SameQueueForAll(trace: seq<Action>, more: seq<Action>, c: ConnectionId, d: ConnectionId)
    requires var s, t := Exec(trace), Exec(trace + more);
             && c in s.sessions && s.sessions[c].pc.Enqueueing?
             && d in t.sessions && t.sessions[d].pc.Enqueueing?
             && s.sessions[c].pc.dispatch.room == t.sessions[d].pc.dispatch.room
    ensures Exec(trace).sessions[c].pc.queue == Exec(trace + more).sessions[d].pc.queue
  {
    ExecRegistryInv(trace);
    ExecRegistryInv(trace + more);
    RegistryOnlyGrows(trace, more, Exec(trace).sessions[c].pc.dispatch.room);
  }

  // ---------- each room task refines a sequential run ----------

  /** Handled, suspended on the rule engine, and queued: together exactly what was enqueued, in order. */
  ghost predicate TaskOk(task: Task) {
    && task.room == Run(task.roomId, task.handled)
    && Commands(task.handled) + (if task.awaiting.Some? then [task.awaiting.value] else []) + task.queue == task.enqueued
    && |task.queue| <= 256
    && (task.awaiting.Some? ==> AsksEngine(task.room, task.awaiting.value))
  }

  ghost predicate TasksOk(s: Sys) {
    forall q: nat | q < |s.tasks| :: TaskOk(s.tasks[q])
  }

  lemma CommandsOne(script: seq<Entry>, entry: Entry)
    ensures Commands(script + [entry]) == Commands(script) + [entry.command]
  {
  }

  lemma HandleOk(task: Task, rest: Task, entry: Entry)
    requires TaskOk(task) && rest == task.(queue := rest.queue, awaiting := rest.awaiting)
    requires Commands(task.handled) + [entry.command] + rest.queue == task.enqueued
    requires |rest.queue| <= ROOM_COMMAND_BUFFER
    ensures TaskOk(Handle(rest, entry))
  {
    CommandsOne(task.handled, entry);
    RunOneMore(task.roomId, task.handled, entry);
  }

  lemma TakeOk(task: Task, inputs: Inputs)
    requires TaskOk(task)
    ensures TaskOk(Take(task, inputs))
  {
    if task.awaiting.None? && task.queue != [] {
      var command, rest := task.queue[0], task.(queue := task.queue[1..]);
      assert [command] + task.queue[1..] == task.queue;
      assert Commands(task.handled) + [command] + task.queue[1..] == task.enqueued;
      if !AsksEngine(task.room, command) {
        HandleOk(task, rest, Entry(command, inputs));
      }
    }
  }

  lemma ResumeOk(task: Task, inputs: Inputs)
    requires TaskOk(task)
    ensures TaskOk(Resume(task, inputs))
  {
    if task.awaiting.Some? {
      HandleOk(task, task, Entry(task.awaiting.value, inputs));
    }
  }

  lemma PushOk(task: Task, command: Command)
    requires TaskOk(task) && |task.queue| < ROOM_COMMAND_BUFFER
    ensures TaskOk(Push(task, command))
  {
  }

  lemma NewTaskOk(roomId: RoomId)
    ensures TaskOk(NewTask(roomId))
  {
  }

  /** What an action does to one task. */
  lemma TaskAfter(s: Sys, a: Action, q: QueueId)
    requires q < |Next(s, a).tasks|
    ensures if q < |s.tasks| then
              var before, after := s.tasks[q], Next(s, a).tasks[q];
              || after == before
              || (a.Dequeue? && after == Take(before, a.inputs))
              || (a.EngineAnswers? && after == Resume(before, a.inputs))
              || (a.Enqueue? && a.c in s.sessions && s.sessions[a.c].pc.Enqueueing? && s.sessions[a.c].pc.queue == q
                  && |before.queue| < ROOM_COMMAND_BUFFER
                  && after == Push(before, s.sessions[a.c].pc.dispatch.command)
                  && Next(s, a).sessions == s.sessions[a.c := Finish(s.sessions[a.c], s.sessions[a.c].pc.dispatch, true)])
            else
              && a.Create? && a.c in s.sessions && s.sessions[a.c].pc.Creating?
              && Next(s, a).tasks[q] == NewTask(s.sessions[a.c].pc.dispatch.room)
  {
  }

  lemma NextTasksOk(s: Sys, a: Action)
    requires TasksOk(s)
    ensures TasksOk(Next(s, a))
  {
    forall q: nat | q < |Next(s, a).tasks|
      ensures TaskOk(Next(s, a).tasks[q])
    {
      TaskAfter(s, a, q);
      if q < |s.tasks| {
        var task := s.tasks[q];
        if a.Dequeue? {
          TakeOk(task, a.inputs);
        } else if a.EngineAnswers? {
          ResumeOk(task, a.inputs);
        } else if a.Enqueue? && a.c in s.sessions && s.sessions[a.c].pc.Enqueueing? && |task.queue| < ROOM_COMMAND_BUFFER {
          PushOk(task, s.sessions[a.c].pc.dispatch.command);
        }
      } else {
        NewTaskOk(s.sessions[a.c].pc.dispatch.room);
      }
    }
  }

  /**
   * Under every interleaving each room is the sequential run of the commands
   * that entered its queue, in that order, each handled exactly once; what is
   * not handled yet is suspended on the rule engine or still queued; and the queue never
   * holds more than its capacity.
   */
  lemma {:induction false} RoomsRunSequentially(trace: seq<Action>)
    ensures TasksOk(Exec(trace))
  {
    if trace != [] {
      var last := |trace| - 1;
      RoomsRunSequentially(trace[..last]);
      NextTasksOk(Exec(trace[..last]), trace[last]);
    }
  }

  lemma NextEnqueued(s: Sys, a: Action, q: QueueId)
    requires q < |s.tasks|
    ensures q < |Next(s, a).tasks|
    ensures s.tasks[q].enqueued <= Next(s, a).tasks[q].enqueued && s.tasks[q].roomId == Next(s, a).tasks[q].roomId
  {
    assert |s.tasks| <= |Next(s, a).tasks|;
    TaskAfter(s, a, q);
  }

  /** Nothing a room has enqueued is ever taken back or reordered. */
  lemma {:induction false} EnqueuedOnlyGrows(trace: seq<Action>, more: seq<Action>, q: QueueId)
    requires q < |Exec(trace).tasks|
    ensures q < |Exec(trace + more).tasks|
    ensures Exec(trace).tasks[q].enqueued <= Exec(trace + more).tasks[q].enqueued
    ensures Exec(trace).tasks[q].roomId == Exec(trace + more).tasks[q].roomId
  {
    if more == [] {
      assert trace + more == trace;
    } else {
      var last := |more| - 1;
      assert (trace + more)[..|trace + more| - 1] == trace + more[..last];
      EnqueuedOnlyGrows(trace, more[..last], q);
      NextEnqueued(Exec(trace + more[..last]), more[last], q);
    }
  }
}
