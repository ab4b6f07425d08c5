// How a player action is answered (src/room.rs:600-727, 756-770, 1105-1145).
module PlayerActions {
  import opened Wrappers
  import opened Protocol
  import opened RoomSpec
  import opened RoomCore
  import opened Connections
  import opened Numbering
  import opened Asking

  /** A registered connection is answered on the channel that came with it in a request for its user. */
  lemma AskersOwnChannel(roomId: RoomId, commands: seq<Command>, core: Core, c: ConnectionId)
    requires core == CoreAfter(roomId, commands) && c in core.connectionToUser
    ensures ChannelFor(core, c).Some?
    ensures BoundBy(commands, ConnectionHandle(c, ChannelFor(core, c).value), core.connectionToUser[c])
  {
    CoreAlwaysSound(roomId, commands);
    SlotsTraced(roomId, commands);
    var slot := core.playersBySeat[core.userToSeat[core.connectionToUser[c]]];
    assert BoundBy(commands, ConnectionHandle(c, slot.outboundTx.value), slot.userId);
  }

  /** All that one rejection does to a room. */
  ghost predicate OnlyRejects(r: Room, next: Room, ch: Channel, requestId: string, code: RejectCode,
                              expected: nat, window: nat) {
    next == Room(r.core, r.nextEventSeq + 1,
                 Send(r.sent, ch, Frame(r.nextEventSeq,
                                        ActionRejected(requestId, code, expected, r.nextEventSeq, window))))
  }

  lemma RejectStep(r: Room, requestId: string, c: ConnectionId, request: ActionRequest, inputs: Inputs)
    requires ChannelFor(r.core, c).Some? && !MatchingToggle(r.core, request)
    ensures OnlyRejects(r, Step(r, Entry(PlayerAction(requestId, c, request), inputs)), ChannelFor(r.core, c).value,
                        requestId, ActionCode(r, Screen(r.core, c, request), request, inputs.answer),
                        request.expectedEventSeq, request.actionWindowId)
  {
  }

  lemma RejectedOnce(r: Room, requestId: string, c: ConnectionId, request: ActionRequest, inputs: Inputs, ch: Channel)
    returns (code: RejectCode)
    requires ChannelFor(r.core, c) == Some(ch) && !MatchingToggle(r.core, request)
    ensures RejectedFor(r.core, request, inputs.answer, code)
    ensures OnlyRejects(r, Step(r, Entry(PlayerAction(requestId, c, request), inputs)), ch, requestId, code,
                        request.expectedEventSeq, request.actionWindowId)
  {
    code := ActionCode(r, Screen(r.core, c, request), request, inputs.answer);
    RejectStep(r, requestId, c, request, inputs);
    CodeTells(r, c, request, inputs.answer);
  }

  /**
   * From a registered connection, for every answer or failure of the rule
   * engine, any action but a matching toggle adds exactly one frame to the
   * whole output: a rejection to the asker's own channel that echoes its request,
   * with the code that the request and the answer call for. Nothing of the core
   * changes, and one number is used.
   */
  lemma RejectedExactlyOnce(roomId: RoomId, script: seq<Entry>, r: Room, requestId: string, c: ConnectionId,
                            request: ActionRequest, inputs: Inputs)
    requires r == Run(roomId, script) && c in r.core.connectionToUser && !MatchingToggle(r.core, request)
    ensures exists ch, code ::
              && BoundBy(Commands(script), ConnectionHandle(c, ch), r.core.connectionToUser[c])
              && RejectedFor(r.core, request, inputs.answer, code)
              && OnlyRejects(r, Step(r, Entry(PlayerAction(requestId, c, request), inputs)), ch, requestId, code,
                             request.expectedEventSeq, request.actionWindowId)
  {
    RunCore(roomId, script);
    AskersOwnChannel(roomId, Commands(script), r.core, c);
    var code := RejectedOnce(r, requestId, c, request, inputs, ChannelFor(r.core, c).value);
  }

  /** All that one toggle does to a room's core. */
  ghost predicate OnlyToggles(core: Core, next: Core, seat: Seat, enabled: bool) {
    && seat in core.playersBySeat
    && next.playersBySeat.Keys == core.playersBySeat.Keys
    && next == core.(playersBySeat := next.playersBySeat)
    && next.playersBySeat[seat] == core.playersBySeat[seat].(autoPlayEnabled := enabled)
    && forall s | s in core.playersBySeat && s != seat :: next.playersBySeat[s] == core.playersBySeat[s]
  }

  lemma ToggleStep(r: Room, requestId: string, c: ConnectionId, request: ActionRequest, inputs: Inputs)
    requires Registered(r.core) && c in r.core.connectionToUser && MatchingToggle(r.core, request)
    ensures var seat := r.core.userToSeat[r.core.connectionToUser[c]];
            Step(r, Entry(PlayerAction(requestId, c, request), inputs))
            == BroadcastSync(r.(core := SetAutoPlay(r.core, seat, request.action.value.enabled)), ServerResync, inputs.now)
  {
  }

  /** Every listening seat gets exactly one snapshot of the toggled table. */
  lemma ToggleSnapshots(r: Room, seat: Seat, enabled: bool, now: Seat -> nat, ch: Channel)
    requires seat in r.core.playersBySeat
    ensures var core := SetAutoPlay(r.core, seat, enabled);
            Grown(Log(r.sent, ch), Log(BroadcastSync(r.(core := core), ServerResync, now).sent, ch),
                  Holders(r.core.playersBySeat, ch, 4), r.nextEventSeq, SyncNotice(core, r.nextEventSeq, ServerResync))
  {
    var core := SetAutoPlay(r.core, seat, enabled);
    SyncSeatsGrow(core, r.sent, 4, r.nextEventSeq, ServerResync, now, ch);
    SameHolders(r.core.playersBySeat, core.playersBySeat, ch, 4);
  }

  /**
   * From a registered connection a matching toggle sets the asker's auto-play
   * flag and nothing else, and sends every listening seat exactly one snapshot.
   */
  lemma ToggleSetsOneFlag(r: Room, requestId: string, c: ConnectionId, request: ActionRequest, inputs: Inputs,
                          ch: Channel)
    requires Registered(r.core) && c in r.core.connectionToUser && MatchingToggle(r.core, request)
    ensures var next := Step(r, Entry(PlayerAction(requestId, c, request), inputs));
            && OnlyToggles(r.core, next.core, r.core.userToSeat[r.core.connectionToUser[c]], request.action.value.enabled)
            && next.nextEventSeq == r.nextEventSeq + 1
            && Grown(Log(r.sent, ch), Log(next.sent, ch), Holders(r.core.playersBySeat, ch, 4),
                     r.nextEventSeq, SyncNotice(next.core, r.nextEventSeq, ServerResync))
  {
    ToggleStep(r, requestId, c, request, inputs);
    ToggleSnapshots(r, r.core.userToSeat[r.core.connectionToUser[c]], request.action.value.enabled, inputs.now, ch);
  }

  /** Who listens where depends only on the slots' wiring. */
  lemma {:induction false} SameHolders(before: map<Seat, PlayerSlot>, after: map<Seat, PlayerSlot>, ch: Channel, k: nat)
    requires k <= 4 && before.Keys == after.Keys
    requires forall s | s in before ::
               before[s].connected == after[s].connected && before[s].outboundTx == after[s].outboundTx
    ensures Holders(before, ch, k) == Holders(after, ch, k)
  {
    if k != 0 {
      SameHolders(before, after, ch, k - 1);
    }
  }

  /** From a connection the room does not know, an action changes and sends nothing at all. */
  lemma UnregisteredIgnored(r: Room, requestId: string, c: ConnectionId, request: ActionRequest, inputs: Inputs)
    requires c !in r.core.connectionToUser
    ensures Step(r, Entry(PlayerAction(requestId, c, request), inputs)) == r
  {
  }

  /** Handling a command that does not ask the rule engine never depends on an answer. */
  lemma AnswerOnlyWhenAsked(r: Room, command: Command, now: Seat -> nat, one: EngineAnswer, other: EngineAnswer)
    requires !AsksEngine(r, command)
    ensures Step(r, Entry(command, Inputs(now, one))) == Step(r, Entry(command, Inputs(now, other)))
  {
  }

  /** A command that asks is, whatever the answer, one rejection whose code says what the answer was. */
  lemma AnswerDecidesTheCode(r: Room, command: Command, inputs: Inputs)
    requires AsksEngine(r, command)
    ensures Step(r, Entry(command, inputs))
            == Reject(r, command.connectionId, command.requestId, EngineVerdict(inputs.answer),
                      command.request.expectedEventSeq, command.request.actionWindowId)
  {
  }
}
