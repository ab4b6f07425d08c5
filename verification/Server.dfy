// The whole server as a transition system: websocket sessions that dispatch one
// client frame at a time, the room registry behind its read-write lock, the
// bounded command queues and the room tasks (src/ws.rs:32-201,
// src/room.rs:96-299).
//
// An execution is any sequence of actions; an action that is not possible in
// the current state does nothing, so every interleaving of any number of
// sessions and tasks is one.
module Server {
  import opened Wrappers
  import opened Protocol
  import opened RoomSpec

  const ROOM_COMMAND_BUFFER: nat := 256

  type QueueId = nat

  // ---------- sessions ----------

  datatype ClientFrame =
    | JoinFrame(requestId: string, join: JoinRequest)
    | ReadyFrame(requestId: string, ready: bool)
    | ResumeFrame(requestId: string, resume: ResumeRequest)
    | ActionFrame(requestId: string, request: ActionRequest)
    | HeartbeatFrame(requestId: string)
    | EmptyFrame(requestId: string)

  /** A command on its way to a room. */
  datatype Dispatch = Dispatch(room: RoomId, command: Command)

  /**
   * Which room a client frame makes current, and what it dispatches: a ready
   * request before any join dispatches nothing, and neither does a heartbeat or a
   * frame without a payload, which the session answers itself.
   */
  function Route(handle: ConnectionHandle, current: Option<RoomId>, frame: ClientFrame)
    : (Option<RoomId>, Option<Dispatch>)
  {
    match frame
    case JoinFrame(requestId, join) =>
      (Some(join.roomId), Some(Dispatch(join.roomId, Join(requestId, handle, join))))
    case ReadyFrame(requestId, ready) =>
      if current.None? then (None, None)
      else (current, Some(Dispatch(current.value, Command.Ready(requestId, handle.connectionId, ready))))
    case ResumeFrame(requestId, resume) =>
      (Some(resume.roomId), Some(Dispatch(resume.roomId, ResumeSession(requestId, handle, resume))))
    case ActionFrame(requestId, request) =>
      (Some(request.roomId), Some(Dispatch(request.roomId, PlayerAction(requestId, handle.connectionId, request))))
    case HeartbeatFrame(_) => (current, None)
    case EmptyFrame(_) => (current, None)
  }

  /** The frame is meant for a room: for the one it names, or, if it says ready, for the current one. */
  predicate Speaks(frame: ClientFrame, current: Option<RoomId>) {
    frame.JoinFrame? || frame.ResumeFrame? || frame.ActionFrame? || (frame.ReadyFrame? && current.Some?)
  }

  /** The dispatch carries the frame's own request, with its id and the session's own handle, to the room it is meant for. */
  predicate Carries(d: Dispatch, frame: ClientFrame, handle: ConnectionHandle, current: Option<RoomId>) {
    match frame
    case JoinFrame(id, join) =>
      d.room == join.roomId && d.command.Join? && d.command.requestId == id && d.command.connection == handle
      && d.command.join == join
    case ReadyFrame(id, ready) =>
      current == Some(d.room) && d.command.Ready? && d.command.requestId == id
      && d.command.connectionId == handle.connectionId && d.command.ready == ready
    case ResumeFrame(id, resume) =>
      d.room == resume.roomId && d.command.ResumeSession? && d.command.requestId == id && d.command.connection == handle
      && d.command.resume == resume
    case ActionFrame(id, request) =>
      d.room == request.roomId && d.command.PlayerAction? && d.command.requestId == id
      && d.command.connectionId == handle.connectionId && d.command.request == request
    case HeartbeatFrame(_) => false
    case EmptyFrame(_) => false
  }

  /** Where a session stands between two of its suspension points. */
  datatype Pc =
    | Idle
    | Looking(dispatch: Dispatch)        // about to take the read lock
    | ReadLocked(dispatch: Dispatch)     // holds the read lock
    | AwaitingWrite(dispatch: Dispatch)  // found no room, wants the write lock
    | WriteLocked(dispatch: Dispatch)    // holds the write lock, has not looked again yet
    | Creating(dispatch: Dispatch)       // holds the write lock, still found no room
    | Enqueueing(dispatch: Dispatch, queue: QueueId)
    | Closed

  /** A session, with the history of what it issued and what got into a queue. */
  datatype Session = Session(
    handle: ConnectionHandle, currentRoom: Option<RoomId>, pc: Pc,
    issued: seq<Dispatch>, delivered: seq<bool>)

  function Begin(session: Session, dispatch: Dispatch): Session {
    session.(pc := Looking(dispatch), issued := session.issued + [dispatch])
  }

  function Receive(session: Session, frame: ClientFrame): Session {
    var (room, dispatch) := Route(session.handle, session.currentRoom, frame);
    if dispatch.None? then session.(currentRoom := room)
    else Begin(session.(currentRoom := room), dispatch.value)
  }

  function Close(session: Session): Session {
    if session.currentRoom.None? then session.(pc := Closed)
    else Begin(session, Dispatch(session.currentRoom.value, Disconnect(session.handle.connectionId)))
  }

  /** The current dispatch ends; the session's last one, the disconnect, closes it. */
  function Finish(session: Session, dispatch: Dispatch, enqueued: bool): Session {
    session.(pc := if dispatch.command.Disconnect? then Closed else Idle, delivered := session.delivered + [enqueued])
  }

  // ---------- the server ----------

  /** A room task and its queue, with the history of what was enqueued and handled. */
  datatype Task = Task(
    roomId: RoomId, queue: seq<Command>, awaiting: Option<Command>, room: Room,
    enqueued: seq<Command>, handled: seq<Entry>)

  function NewTask(roomId: RoomId): Task {
    Task(roomId, [], None, NewRoom(roomId), [], [])
  }

  function Push(task: Task, command: Command): Task {
    task.(queue := task.queue + [command], enqueued := task.enqueued + [command])
  }

  function Handle(task: Task, entry: Entry): Task {
    task.(room := Step(task.room, entry), handled := task.handled + [entry], awaiting := None)
  }

  /** Takes the next command; one that asks the rule engine suspends the room task instead of finishing. */
  function Take(task: Task, inputs: Inputs): Task {
    if task.awaiting.Some? || task.queue == [] then task
    else
      var command, rest := task.queue[0], task.(queue := task.queue[1..]);
      if AsksEngine(task.room, command) then rest.(awaiting := Some(command))
      else Handle(rest, Entry(command, inputs))
  }

  function Resume(task: Task, inputs: Inputs): Task {
    if task.awaiting.None? then task else Handle(task, Entry(task.awaiting.value, inputs))
  }

  datatype Sys = Sys(
    registry: map<RoomId, QueueId>, readers: set<ConnectionId>, writer: Option<ConnectionId>,
    tasks: seq<Task>, sessions: map<ConnectionId, Session>, nextConnection: nat)

  const Start: Sys := Sys(map[], {}, None, [], map[], 1)

  datatype Action =
    | Connect
    | ReceiveFrame(c: ConnectionId, frame: ClientFrame)
    | CloseSocket(c: ConnectionId)
    | LockRead(c: ConnectionId)
    | Lookup(c: ConnectionId)
    | LockWrite(c: ConnectionId)
    | Recheck(c: ConnectionId)
    | Create(c: ConnectionId)
    | Enqueue(c: ConnectionId)
    | Dequeue(q: QueueId, inputs: Inputs)
    | EngineAnswers(q: QueueId, inputs: Inputs)

  function ConnectionName(n: nat): ConnectionId { "conn-" + Decimal(n) }

  function DoConnect(s: Sys): Sys {
    var c := ConnectionName(s.nextConnection);
    s.(nextConnection := s.nextConnection + 1,
       sessions := s.sessions[c := Session(ConnectionHandle(c, s.nextConnection), None, Idle, [], [])])
  }

  function Put(s: Sys, c: ConnectionId, session: Session): Sys {
    s.(sessions := s.sessions[c := session])
  }

  function DoLockRead(s: Sys, c: ConnectionId): Sys
    requires c in s.sessions
  {
    var me := s.sessions[c];
    if me.pc.Looking? && s.writer.None?
    then Put(s, c, me.(pc := ReadLocked(me.pc.dispatch))).(readers := s.readers + {c})
    else s
  }

  /** The lookup under the read lock: a join may go on to create, anything else ends here when there is no room. */
  function DoLookup(s: Sys, c: ConnectionId): Sys
    requires c in s.sessions
  {
    var me := s.sessions[c];
    if !me.pc.ReadLocked? then s
    else
      var d := me.pc.dispatch;
      var after :=
        if d.room in s.registry then me.(pc := Enqueueing(d, s.registry[d.room]))
        else if d.command.Join? then me.(pc := AwaitingWrite(d))
        else Finish(me, d, false);
      Put(s, c, after).(readers := s.readers - {c})
  }

  function DoLockWrite(s: Sys, c: ConnectionId): Sys
    requires c in s.sessions
  {
    var me := s.sessions[c];
    if me.pc.AwaitingWrite? && s.writer.None? && s.readers == {}
    then Put(s, c, me.(pc := WriteLocked(me.pc.dispatch))).(writer := Some(c))
    else s
  }

  function DoRecheck(s: Sys, c: ConnectionId): Sys
    requires c in s.sessions
  {
    var me := s.sessions[c];
    if !me.pc.WriteLocked? then s
    else
      var d := me.pc.dispatch;
      if d.room in s.registry
      then Put(s, c, me.(pc := Enqueueing(d, s.registry[d.room]))).(writer := None)
      else Put(s, c, me.(pc := Creating(d)))
  }

  function DoCreate(s: Sys, c: ConnectionId): Sys
    requires c in s.sessions
  {
    var me := s.sessions[c];
    if !me.pc.Creating? then s
    else
      var d := me.pc.dispatch;
      Put(s, c, me.(pc := Enqueueing(d, |s.tasks|))).(
        writer := None,
        tasks := s.tasks + [NewTask(d.room)],
        registry := s.registry[d.room := |s.tasks|])
  }

  /** Possible only while the queue has room. */
  function DoEnqueue(s: Sys, c: ConnectionId): Sys
    requires c in s.sessions
  {
    var me := s.sessions[c];
    if me.pc.Enqueueing? && me.pc.queue < |s.tasks| && |s.tasks[me.pc.queue].queue| < ROOM_COMMAND_BUFFER
    then Put(s, c, Finish(me, me.pc.dispatch, true)).(
           tasks := s.tasks[me.pc.queue := Push(s.tasks[me.pc.queue], me.pc.dispatch.command)])
    else s
  }

  function Next(s: Sys, a: Action): Sys {
    match a
    case Connect => DoConnect(s)
    case ReceiveFrame(c, frame) =>
      if c in s.sessions && s.sessions[c].pc.Idle? then Put(s, c, Receive(s.sessions[c], frame)) else s
    case CloseSocket(c) =>
      if c in s.sessions && s.sessions[c].pc.Idle? then Put(s, c, Close(s.sessions[c])) else s
    case LockRead(c) => if c in s.sessions then DoLockRead(s, c) else s
    case Lookup(c) => if c in s.sessions then DoLookup(s, c) else s
    case LockWrite(c) => if c in s.sessions then DoLockWrite(s, c) else s
    case Recheck(c) => if c in s.sessions then DoRecheck(s, c) else s
    case Create(c) => if c in s.sessions then DoCreate(s, c) else s
    case Enqueue(c) => if c in s.sessions then DoEnqueue(s, c) else s
    case Dequeue(q, inputs) => if q < |s.tasks| then s.(tasks := s.tasks[q := Take(s.tasks[q], inputs)]) else s
    case EngineAnswers(q, inputs) => if q < |s.tasks| then s.(tasks := s.tasks[q := Resume(s.tasks[q], inputs)]) else s
  }

  /** The state after any sequence of actions. */
  function Exec(trace: seq<Action>): Sys {
    if trace == [] then Start
    else
      var last := |trace| - 1;
      Next(Exec(trace[..last]), trace[last])
  }

  // ---------- a session in place ----------

  /** src/ws.rs keeps a session's current room in place; routing a frame overwrites it. */
  class ConnectionSession {
    const handle: ConnectionHandle
    var currentRoomId: Option<RoomId>

    constructor (handle: ConnectionHandle)
      ensures this.handle == handle && currentRoomId == None
    {
      this.handle := handle;
      currentRoomId := None;
    }

    method HandleClientFrame(frame: ClientFrame) returns (dispatch: Option<Dispatch>)
      modifies this
      ensures (currentRoomId, dispatch) == Route(handle, old(currentRoomId), frame)
      ensures dispatch.Some? <==> Speaks(frame, old(currentRoomId))
      ensures dispatch.Some? ==>
                Carries(dispatch.value, frame, handle, old(currentRoomId)) && currentRoomId == Some(dispatch.value.room)
      ensures dispatch.None? ==> currentRoomId == old(currentRoomId)
    {
      match frame {
        case JoinFrame(requestId, join) =>
          currentRoomId := Some(join.roomId);
          dispatch := Some(Dispatch(join.roomId, Join(requestId, handle, join)));
        case ReadyFrame(requestId, ready) =>
          if currentRoomId.None? {
            dispatch := None;
          } else {
            dispatch := Some(Dispatch(currentRoomId.value, Command.Ready(requestId, handle.connectionId, ready)));
          }
        case ResumeFrame(requestId, resume) =>
          currentRoomId := Some(resume.roomId);
          dispatch := Some(Dispatch(resume.roomId, ResumeSession(requestId, handle, resume)));
        case ActionFrame(requestId, request) =>
          currentRoomId := Some(request.roomId);
          dispatch := Some(Dispatch(request.roomId, PlayerAction(requestId, handle.connectionId, request)));
        case HeartbeatFrame(_) =>
          dispatch := None;
        case EmptyFrame(_) =>
          dispatch := None;
      }
    }
  }
}
