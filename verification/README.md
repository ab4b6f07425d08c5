# A verified model of the mahjong room server and its rule-engine adapter

This project models, in Dafny 4.11, the two components of the repository that
hold its hard behaviour, and proves properties of the model.

**The room server** (`src/room.rs`, `src/ws.rs`). A websocket session hands
commands to a registry of rooms, which creates one task per room behind a
read-write lock; each task drains a bounded queue and handles one command at a
time, changing three cross-linked maps and sending numbered frames to several
channels. It is modelled on two levels:

- `RoomSpec` says what each command does as a function of the room's value.
  `RoomTask` holds the room as a class whose methods update its fields in place;
  each method is proved against its function. `RoomCore`, `Seating`,
  `Connections`, `Introductions`, `Replica`, `Numbering`, `Requests` and
  `PlayerActions` prove what every command list does to a room; `Table` and
  `Frames` say field by field what its frames tell, apart from the functions that
  build them;
  `Translation` models how a client action becomes a rule-engine request, and
  `Asking` what the request and the answer to the client then say.
- `Server` is a transition system over any number of sessions, the registry and
  its lock, the queues and the room tasks; waiting for the rule engine is a
  suspension of its own. `Interleavings`, `Sessions`, `Quiescence`, `Desertion`
  and `Progress` prove what holds under every interleaving, carry the sequential
  results over to it, say when exactly a room ends up deserted, and show where the
  server can stop; `Routing` tells what a session issues from the frames it received,
  `Delivery` follows a connection's channel across all rooms, and `Suspension` what a
  silent rule engine does.

**The rule-engine adapter** (`cpp_engine/src/gb_mahjong_adapter.cc`). It builds a
14-tile hand in two independent ways, for validation and for scoring, keeps
count tables beside tile lists, encodes melds as packs, and settles a win.
`Tiles`, `Melds` and `HandSpec` specify the hands; `HandBuilding` is the hand
under construction as a class, with both builders proved against the
specification; `HandCounts`, `Agreement` and `BuiltHands` prove what the hands
contain, that the builders agree and when exactly they succeed; `Settlement` and
`Adapter` cover the score deltas and the two operations as a whole, and `Outcomes`
tells their answers from request, hand and judgement. `EngineProtocol` is the
protocol between the two components, and `EndToEnd` proves what they do together.
Exceptions are modelled as results with an error side, and the vendored library's
judgement and fan count as two arbitrary functions of the finished hand.

## Properties that hold only on a condition

- Exact binding of slots and connections fails when one connection speaks for two
  users: `Connections.ExactThroughoutIff` gives the exact condition, and
  `Connections.SharedConnectionLingers` a family of runs that leave a seat
  connected after its connection is gone.
- Numbers along one channel repeat exactly when a broadcast finds two slots on it
  (`Numbering.AscendingIff`), as on the runs of `Numbering.NumbersRepeat`.
- Once everything is quiet, a room may still have a connected seat: exactly when
  some user is still held, that is, when a granted binding of the user was not
  followed by a disconnect of a connection registered for the user
  (`Desertion.QuietRoomDesertedIff`). A session that names two rooms
  (`Desertion.TwoRoomsLinger`) or speaks for two users
  (`Connections.SharedConnectionLingers`) can bring this about; sessions of one room
  and one user never do (`Quiescence.AllQuietOnEveryRoom`).
- A late disconnect is harmless without one user per connection, as long as the
  old connection does not ask to bind again in between.
- The server can go on by itself exactly when it does not await the rule engine
  alone (`Progress.OwnStepIff`), and by itself it always comes to that point
  (`Progress.ComesToTheEngine`). The call is awaited without a timeout, so a room
  waits as long as the rule engine is silent (`Suspension.SilentEngine`); if it
  answers, the server comes to rest (`Progress.ComesToRest`).
- A connection's whole channel tells one room's state if its session named one
  room (`Delivery.WholeChannelAgrees`); each room's own share of a channel always
  does (`Replica.ReplicasAgree`).
- Validation refuses a private hand that already contains the completing tile,
  while scoring takes both forms: `Agreement.BuildersAgree` gives the exact
  condition, `Agreement.ScoringAcceptsMore` an input.
- A settlement is zero-sum exactly when the hands are balanced
  (`Settlement.ZeroSumIff`): a self-draw whose winner is only flagged, with no hand
  in the winner's seat (`Adapter.UnseatedWinner`, `Adapter.ScoreDestroysPoints`), or
  a discard win whose discarder is not listed (`Adapter.UnlistedDiscarder`,
  `Adapter.ScoreCreatesPoints`), breaks it unless the stake is zero.
- A win that a client claims is never granted as the two components are wired
  today, whatever the hand: the room sends the adapter no hand to judge
  (`EndToEnd.NoWinIsEverGranted`).

## Model

| member | source | states |
|---|---|---|
| `Quiescence.EveryRoomObeys` | src/room.rs:291-299 | In every reachable state of the whole server every room has sound maps and a complete numbering, every channel that feeds a slot shows the table, and every frame says what a handled command had the room say |
| `Replica.ReplicasAgree` | src/room.rs:1039-1204 | After every run, folding the frames that the room has sent along any channel that feeds a slot gives the table as it is: phase, round, and for each taken seat in order its player's user id, display name, seat, status, score, connection, auto-play and dealer flag |
| `Frames.EveryFrameSays` | src/room.rs:403-785 | Every frame on every channel of every run says, field by field, what some command of the run had the room say there: answers, snapshots, notices and rejections told from the request, the clock reading, the engine's answer and the slots |
| `RoomCore.PhaseAfter` | src/room.rs:502-514 | After every command list the phase is Dealing if and only if all four seats are taken by players who are Ready, and Lobby otherwise |
| `Numbering.RunNumbered` | src/room.rs:777-781 | Over any run the numbers used are exactly 1 to next-1, one to each event of the history, and every frame tells the event of its own number |
| `Numbering.AscendingIff` | src/room.rs:1039-1145 | A channel's numbers strictly increase over a run if and only if no broadcast of it finds two slots on that channel |
| `Seating.SeatedByHistory` | src/room.rs:403-481 | After any command list the seated users are exactly the first four distinct users in Join order, the k-th in the k-th seat, and no user is listed twice |
| `Connections.ExactThroughoutIff` | src/room.rs:446-592 | Slots and registered connections match exactly at every point of a run if and only if no command of it steals a connection |
| `Connections.LateDisconnectHarmless` | src/room.rs:582-732 | After a takeover, the old connection's disconnect can be deleted from the run, wherever it arrives before that connection asks to bind again, without changing state, numbers or output |
| `Desertion.QuietRoomDesertedIff` | src/ws.rs:102-107 | Once the server is quiet, a room is deserted if and only if no user is held in the history of its queue, with no assumption on the sessions |
| `Desertion.DesertedIff` | src/room.rs:446-744 | A room has no registered connection and no connected slot if and only if no user is still held, with no assumption on the clients |
| `Interleavings.RoomsRunSequentially` | src/room.rs:238-299 | Under every interleaving a room equals the sequential run of its queue's commands in enqueue order, each handled exactly once, and the queue never exceeds 256 |
| `Sessions.OwnOrderKept` | src/ws.rs:39-100 | A connection's commands in a room's queue are exactly those it issued to that room and that found it, in its own order |
| `Routing.IssuedAsReceived` | src/ws.rs:32-107 | Under every interleaving, what a session has issued is one dispatch for each received frame meant for a room, in order and with the frame's own request, and, once its socket has closed, its disconnect to the last room |
| `Interleavings.SameQueueForAll` | src/room.rs:263-288 | All callers for one room id get the same queue, however far apart their calls are |
| `Interleavings.OneTaskPerRoom` | src/room.rs:263-288 | No two tasks are ever spawned for one room id |
| `Quiescence.AllQuietOnEveryRoom` | src/ws.rs:102-107 | Once all sockets have closed and all queues have drained, and if each session named one room and one user, every room has no registered connection and no connected slot |
| `Quiescence.NumbersAscendEverywhere` | src/room.rs:777-785 | If no session speaks for two users, the numbers any room sends along any connection's channel strictly increase under every interleaving |
| `Progress.OwnStepIff` | src/room.rs:238-299 | In every reachable state the server has a step of its own, with no answer of the rule engine, if and only if it does not await the rule engine alone: every room task suspended or idle, every active session facing the full queue of a suspended one |
| `Progress.ComesToTheEngine` | src/room.rs:238-299 | From every reachable state the server comes by its own steps, at most as many as its rank, to where it awaits the rule engine alone, if anything |
| `Progress.EveryoneIsGoneInTheEnd` | src/ws.rs:102-107 | Once every socket is gone and if the rule engine answers every call, a quiet state in which every room is deserted can be reached, sessions naming one room and one user each |
| `Delivery.WholeChannelAgrees` | src/ws.rs:39-50 | All that all rooms have sent to a session that named one room, merged in any order, folds to the table, field by field, of the room where its channel feeds a slot |
| `Requests.HandedTokenResumes` | src/room.rs:443-567 | The token read off a join's answer is accepted by every later resume of that user, whatever happens in between |
| `Requests.ResumeGrantedIff` | src/room.rs:529-567 | A resume is granted if and only if the user is among the first four joiners and the token is the one of room and user; a stranger is told NotInRoom, a wrong token AuthFailed, and nobody an internal error |
| `Requests.SnapshotsAddressed` | src/room.rs:1147-1204 | Over any run, every snapshot on a channel is addressed to the seat of a user for whom that channel asked |
| `PlayerActions.RejectedExactlyOnce` | src/room.rs:600-727 | From a registered connection, for every engine answer or failure, an action other than a matching toggle adds exactly one frame to the whole output, a rejection to the asker echoing its request with the code that request and answer call for, and changes only the counter |
| `Asking.AskedTells` | src/room.rs:791-1037 | In every run the engine is asked about the asker's own action, in the first hand of the room's match, at the last number handed out, with the seat numbers, triggers, sources and window the client named, and nobody's tiles |
| `RoomCore.CoreAlwaysSound` | src/room.rs:347-785 | All core invariants hold after every command list, with no assumption on the clients |
| `EndToEnd.NoWinIsEverGranted` | src/room.rs:665-726 | With the adapter as rule engine and whatever the library would judge, an action that claims a win, or any action in a room with a blank id, is answered as an invalid request and any other translatable one as not available, in one rejection |
| `Melds.MeldRoundTrip` | cpp_engine/src/gb_mahjong_adapter.cc:167-231 | A decoder recovers tiles, kind, claimed tile of a run and source seat of an exposed triplet or quad from the pack of every well-formed meld, for every tile order |
| `Agreement.BuildersAgree` | cpp_engine/src/gb_mahjong_adapter.cc:302-448 | On requests about the same win of the player in the actor's seat, validation builds a hand if and only if scoring does and validation was given thirteen tiles, and then the hands are equal |
| `Agreement.CanonicalHand` | cpp_engine/src/gb_mahjong_adapter.cc:375-447 | A thirteen-tile snapshot and any arrangement of it with the winning tile included build the same hand, or both fail |
| `BuiltHands.ValidationBuilds` | cpp_engine/src/gb_mahjong_adapter.cc:302-361 | Validation builds a hand if and only if the first player in the actor's seat has readable melds and flowers, thirteen readable tiles and a readable completing one; the hand then has that player's winds, flags, packs, flowers and tiles, the completing one last |
| `BuiltHands.ScoringBuilds` | cpp_engine/src/gb_mahjong_adapter.cc:387-448 | Scoring builds a hand if and only if the snapshot can be read and shows thirteen tiles, or fourteen with the winning one; the hand then has the snapshot's winds, flags, packs, flowers and tiles, the winning one last |
| `HandCounts.TablesCount` | cpp_engine/src/gb_mahjong_adapter.cc:149-165 | Every table of a built hand has a cell for each tile of its range and each cell equals the multiplicity in its list |
| `Adapter.AcceptedWinIsScored` | cpp_engine/src/gb_mahjong_adapter.cc:522-667 | On requests about the same win, validation accepts if and only if scoring does and validation was given thirteen tiles, and the fans and the total announced are the ones settled |
| `Outcomes.ValidateTells` | cpp_engine/src/gb_mahjong_adapter.cc:522-602 | Validation answers every request, error or not: which part is missing, by number the code and kind of action, the judgement of a win with its shape, fans and total, and the meld a claim would make |
| `Outcomes.ScoreTells` | cpp_engine/src/gb_mahjong_adapter.cc:604-667 | A request is scored if and only if the first hand flagged or in the winner's seat can be built and is judged a win; then every hand is paid by its fan, which are all listed |
| `Outcomes.ScorePays` | cpp_engine/src/gb_mahjong_adapter.cc:637-664 | On a scored discard win the hand in the winner's seat gains the fan times the base points, or the bare fan without base points, and the discarder's loses as much; on self-draw every other hand loses that and the winner's gains it from each |
| `Settlement.ZeroSumIff` | cpp_engine/src/gb_mahjong_adapter.cc:637-664 | The deltas cancel if and only if the unit is zero or, on self-draw, exactly one hand sits in the winner's seat and, otherwise, as many winners as payers are listed |
| `Settlement.ChainConserves` | cpp_engine/src/gb_mahjong_adapter.cc:661-662 | Over any number of balanced settlements, each starting from the last one's totals in any order, the sum of scores never changes |
| `Desertion.TwoRoomsLinger` | src/ws.rs:102-131 | A run of the server on which desertion fails: a session joins one room, joins another and closes, and the first seat stays connected on a quiet server |
| `Connections.SharedConnectionLingers` | src/room.rs:446-744 | Without that discipline the property fails: a connection that joins as two users and leaves keeps the first user's slot connected |
| `Numbering.NumbersRepeat` | src/room.rs:1039-1103 | Runs on which numbers repeat along a channel: one connection joins as two users |
| `Agreement.ScoringAcceptsMore` | cpp_engine/src/gb_mahjong_adapter.cc:343-431 | A self-drawn pure straight with a triplet and a pair on which the two builders differ |
| `Adapter.ScoreCreatesPoints` | cpp_engine/src/gb_mahjong_adapter.cc:604-667 | A scored request whose deltas do not cancel: the discarder is not among the hands |
| `Adapter.ScoreDestroysPoints` | cpp_engine/src/gb_mahjong_adapter.cc:604-667 | A scored request whose deltas sum below zero: its winner is flagged in another seat than the winner's |
| `Suspension.SilentEngine` | src/room.rs:683 | A run on which a silent rule engine holds up the server: one client joins and passes, and no step of the server's own leads on from there |
| `RoomTask.RoomState.constructor` | src/room.rs:348-375 | A new room is the specified starting state: empty maps, Lobby, next number 1 |
| `RoomTask.RoomState.AllocateEventSeq` | src/room.rs:777-781 | Hands out the next number and steps the counter by one, touching nothing else |
| `RoomTask.RoomState.SendFrame` | src/room.rs:48-56 | A frame is appended to its channel's log and to no other |
| `RoomTask.RoomState.BroadcastSyncState` | src/room.rs:1039-1064 | The in-place broadcast equals the specified one: one shared number, one snapshot to each listening seat |
| `RoomTask.RoomState.NotifyListeners` | src/room.rs:1066-1103 | Whatever order the hash map yields its slots in, every channel's log comes out the same |
| `RoomTask.RoomState.BroadcastConnectionChanged` | src/room.rs:1066-1103 | One number and one notice to every listening slot; nothing for an empty seat |
| `RoomTask.RoomState.SendRejectToConnection` | src/room.rs:1105-1145 | A rejection reaches the channel of the asker's slot, or nothing at all happens |
| `RoomTask.RoomState.HandleJoin` | src/room.rs:403-481 | The in-place handler yields exactly the specified room, refusals included, and keeps the object valid |
| `RoomTask.RoomState.HandleReady` | src/room.rs:483-521 | The in-place handler yields exactly the specified room, phase recomputed over the whole table |
| `RoomTask.RoomState.HandleResume` | src/room.rs:523-598 | The in-place handler yields exactly the specified room: old connection dropped, new one bound, snapshot to the resumer, notice to all |
| `RoomTask.RoomState.HandleAutoPlayToggle` | src/room.rs:756-770 | Sets one slot's flag and broadcasts, or leaves the room as it was for an unknown seat |
| `RoomTask.RoomState.HandlePlayerAction` | src/room.rs:600-727 | The in-place handler yields exactly the specified room for every answer or failure of the rule engine |
| `RoomTask.RoomState.HandleDisconnect` | src/room.rs:729-748 | The in-place handler yields exactly the specified room, or no change for an unknown connection |
| `RoomTask.RoomState.HandleCommand` | src/room.rs:377-401 | Dispatching a command is one step of the specification |
| `RoomTask.RunRoomTask` | src/room.rs:291-299 | The receive loop ends in the sequential run of its queue, whatever the queue holds |
| `RoomCore.RunCore` | src/room.rs:377-401 | Seats, phase and connection maps are a function of the commands alone: no clock reading and no rule-engine answer influences them |
| `RoomCore.NextCoreLinked` | src/room.rs:403-598 | Every command keeps the three maps cross-linked: lookups inverse, slots wired all or nothing, registered connections bound to their user's slot |
| `RoomCore.OneConnectionPerUser` | src/room.rs:446-463 | No user is ever reached by two registered connections |
| `RoomCore.ReadinessOnlyByReady` | src/room.rs:483-521 | Only a ready request alters a slot's status, and only its own sender's |
| `RoomCore.NextCorePhase` | src/room.rs:502-514 | Every command keeps the phase Dealing if and only if East, South, West and North are all taken by players who are Ready, and Lobby otherwise, although one handler writes it |
| `Seating.NextSeatedInOrder` | src/room.rs:403-481 | One command seats a newcomer in the next seat of the order or changes no seat |
| `Seating.SeatsNeverChange` | src/room.rs:403-481 | Once seated, a user keeps that seat through every continuation |
| `Connections.SlotsTraced` | src/room.rs:446-463 | In every reachable state a slot's connection and channel came together in one handle, in a request for that very user |
| `Connections.ExactStepIff` | src/room.rs:581-592 | A command keeps exact binding if and only if it is not a granted binding of a connection registered for another user |
| `Connections.RegisteredAsked` | src/room.rs:446-447 | A registered connection itself asked to speak for the user it is registered for |
| `Connections.OneUserNeverSteals` | src/room.rs:446-592 | If no connection asks for two users, no command of the run steals |
| `Connections.ConnectionsMatchSeats` | src/room.rs:446-744 | Under one user per connection, registered connections and connected seats are in bijection through every join, takeover and disconnect |
| `Connections.AbandonedConnection` | src/room.rs:581-592 | After a takeover the old connection stays unregistered through every continuation in which it asks for nothing |
| `Connections.DisconnectIsNoOpIff` | src/room.rs:729-732 | A disconnect leaves room, numbering and output unchanged if and only if its connection is not registered |
| `Connections.EveryoneGone` | src/room.rs:729-744 | When every connection that asked to bind has disconnected since, none is registered; under one user per connection every slot is disconnected |
| `Replica.SyncSeatsView` | src/room.rs:1039-1064 | A snapshot broadcast takes each listening channel's view to the public state and no view anywhere else |
| `Replica.NotifySeatsView` | src/room.rs:1066-1103 | A notice that takes view v to w and w to itself takes every listening channel to w, even one that gets several copies |
| `Replica.ResumeAgrees` | src/room.rs:581-597 | A resume sends a snapshot to the resumer alone, yet every channel's view ends at the public state |
| `Replica.StepAgrees` | src/room.rs:377-401 | Every command keeps every fed channel's view equal to the public state |
| `Numbering.SyncSeatsGrow` | src/room.rs:1039-1064 | A snapshot broadcast adds to each channel exactly one frame per listening slot on it, all telling the same event |
| `Numbering.NotifySeatsGrow` | src/room.rs:1066-1103 | A notice adds to each channel exactly one copy per listening slot on it |
| `Numbering.SameNumberSameEvent` | src/room.rs:1039-1103 | Frames sharing a number, on whatever channels, differ at most in the recipient's seat and in clock readings |
| `Numbering.StepAscendingIff` | src/room.rs:1039-1145 | A command keeps a channel's numbers strictly increasing if and only if a broadcast of it finds at most one slot on that channel |
| `Numbering.NumbersAscend` | src/room.rs:777-785 | Under that discipline the numbers along every channel strictly increase |
| `Requests.JoinRefused` | src/room.rs:409-440 | A refused join is exactly one answer to the asker, already joined with the seat held or seat unavailable, and changes nothing but the counter |
| `Requests.JoinGranted` | src/room.rs:442-480 | A granted join seats its user in the first open seat with the name given, the starting score and the token of room and user, changes nobody else, and is first of all answered with that seat and token |
| `Requests.ReadySetsOneStatus` | src/room.rs:483-521 | A ready request sets its sender's status as asked and no other, and sends each listening seat one snapshot whose reason is RoundStart if and only if all four seats are taken by players who are Ready |
| `Requests.ResumeRestores` | src/room.rs:569-597 | A granted resume keeps seat, status, score and auto-play, leaves the user reached by the new connection alone, and first of all sends it a snapshot of that table addressed to its seat |
| `Requests.OneAddressee` | src/room.rs:1147-1204 | Under one user per connection, all snapshots on one channel are addressed to one seat |
| `PlayerActions.AskersOwnChannel` | src/room.rs:1114-1128 | A registered connection is answered on the channel that came with it in a request for its own user |
| `PlayerActions.ToggleSetsOneFlag` | src/room.rs:646-770 | A matching toggle sets the asker's auto-play flag and nothing else, and sends each listening seat exactly one snapshot |
| `PlayerActions.UnregisteredIgnored` | src/room.rs:1114-1119 | From an unregistered connection an action changes and sends nothing: the rejection repeats the failed lookup |
| `PlayerActions.AnswerOnlyWhenAsked` | src/room.rs:665-683 | A command that does not ask the rule engine is handled the same for any two answers |
| `Translation.TranslatesIff` | src/room.rs:828-881 | A candidate action translates if and only if each enum number it carries is known to the client protocol |
| `Translation.OnlyTheCandidateCanFail` | src/room.rs:791-826 | Once the candidate translates, the two context builders cannot fail; the request fails only with the candidate's code |
| `Translation.ContextsAgree` | src/room.rs:883-996 | A claim window is present exactly for a nonzero window id and matches the recent action on sequence, seat, kind and, but for a discard, tile; a kong can be robbed exactly when the trigger is an added kong |
| `Translation.CandidateRoundTrip` | src/room.rs:828-881 | The client's action can be read back from the candidate that the rule engine is asked about |
| `Server.ConnectionSession.constructor` | src/ws.rs:264-270 | A new session has no current room |
| `Server.ConnectionSession.HandleClientFrame` | src/ws.rs:112-201 | In place: a join, resume, action or, in a room, ready frame is dispatched with its own request id and content to the room it is meant for, which becomes current; any other frame dispatches nothing and changes nothing |
| `Interleavings.ExecRegistryInv` | src/room.rs:258-288 | Under every interleaving: registry and tasks in bijection, creators still find no room, senders hold the registered queue |
| `Interleavings.OneCreator` | src/room.rs:268-272 | No two sessions are ever both about to create a room |
| `Interleavings.RegistryOnlyGrows` | src/room.rs:280-285 | No registry entry is ever removed or replaced |
| `Interleavings.EnqueuedOnlyGrows` | src/room.rs:238-256 | Nothing a room has enqueued is ever taken back or reordered |
| `Sessions.ExecServerOk` | src/ws.rs:32-110 | Under every interleaving the histories of sessions, queues and rooms fit together |
| `Progress.NeverStuck` | src/room.rs:238-288 | If the rule engine answers every call, something can happen without the clients in every reachable state with work left |
| `Progress.InternalStepsRunOut` | src/room.rs:238-299 | Every effective step without the clients, answers of the rule engine included, lowers the server's rank, so under any schedule only finitely many follow |
| `Progress.ComesToRest` | src/room.rs:238-299 | If the rule engine answers every call, a settled state can be reached from every reachable one within its rank's number of steps without the clients |
| `Melds.OfferIff` | cpp_engine/src/gb_mahjong_adapter.cc:84-91 | An offer exists exactly between two different named seats, and is the number of seats, 1 to 3, from the source round to the actor |
| `Melds.EncodesIff` | cpp_engine/src/gb_mahjong_adapter.cc:167-231 | The encoder succeeds if and only if the tiles are known and the kind's own condition on size, claimed tile or source seat holds |
| `Melds.PackTiles` | cpp_engine/third_party/GB-Mahjong/mahjong/pack.h:30-59 | A well-formed meld's pack expands to exactly its own tiles |
| `HandBuilding.Handtiles.constructor` | cpp_engine/third_party/GB-Mahjong/mahjong/handtiles.h:17-24 | A new hand has empty lists and empty tables |
| `HandBuilding.Handtiles.SeedTables` | cpp_engine/src/gb_mahjong_adapter.cc:149-159 | After both loops each table has exactly the empty cells of its range |
| `HandBuilding.Handtiles.AddLipaiTile` | cpp_engine/src/gb_mahjong_adapter.cc:242-245 | Appends one tile and keeps list and table in step |
| `HandBuilding.Handtiles.AddFlower` | cpp_engine/src/gb_mahjong_adapter.cc:161-165 | Appends one flower and keeps list and table in step, or fails on an unknown tile changing nothing |
| `HandBuilding.Handtiles.CountPack` | cpp_engine/src/gb_mahjong_adapter.cc:237-239 | Bumps the cells of every tile a pack expands to |
| `HandBuilding.Handtiles.AddMeld` | cpp_engine/src/gb_mahjong_adapter.cc:233-240 | Appends the meld's pack and keeps list and table in step, or fails as the encoder does changing nothing |
| `HandBuilding.Handtiles.SetRound` | cpp_engine/src/gb_mahjong_adapter.cc:316-327 | Sets winds and flags and nothing else |
| `HandBuilding.Handtiles.AddMelds` | cpp_engine/src/gb_mahjong_adapter.cc:329-331 | The loop adds the packs of all melds, or stops with the first failing meld's error |
| `HandBuilding.Handtiles.AddFlowers` | cpp_engine/src/gb_mahjong_adapter.cc:333-335 | The loop adds all flowers, or stops at one that is not a tile |
| `HandBuilding.Handtiles.AddConcealed` | cpp_engine/src/gb_mahjong_adapter.cc:337-341 | The loop adds all concealed tiles, or stops at one that is not a tile |
| `HandBuilding.Handtiles.AddShown` | cpp_engine/src/gb_mahjong_adapter.cc:404-410 | Melds before flowers: a bad meld's error wins over a bad flower's |
| `HandBuilding.Handtiles.Start` | cpp_engine/src/gb_mahjong_adapter.cc:387-410 | Winds, flags, melds and flowers come out as the common first half of both builders, errors in the source's order |
| `HandBuilding.Handtiles.AddPrivateHand` | cpp_engine/src/gb_mahjong_adapter.cc:337-347 | Concealed tiles, then the drawn tile on a self-draw and the claimed one otherwise |
| `HandBuilding.Handtiles.AddTiles` | cpp_engine/src/gb_mahjong_adapter.cc:433-435 | The loop adds translated tiles in order and counts each |
| `HandBuilding.Handtiles.MarkLast` | cpp_engine/src/gb_mahjong_adapter.cc:354-358 | Marks the last tile as self-drawn or claimed |
| `HandBuilding.Handtiles.SortLipaiWithoutLastOne` | cpp_engine/third_party/GB-Mahjong/mahjong/handtiles.h:61-63 | Sorts all but the last tile and leaves the count table valid |
| `HandBuilding.Handtiles.Complete` | cpp_engine/src/gb_mahjong_adapter.cc:354-359 | Marking and sorting complete the hand as specified |
| `HandBuilding.FindActorState` | cpp_engine/src/gb_mahjong_adapter.cc:26-42 | The loop returns the first player who sits in the actor's seat, or nobody if and only if nobody does |
| `HandBuilding.FindWinner` | cpp_engine/src/gb_mahjong_adapter.cc:363-373 | The loop returns the first hand that is flagged or in the winner's seat, or none if and only if there is none |
| `HandBuilding.MoveOneTileToBack` | cpp_engine/src/gb_mahjong_adapter.cc:375-385 | Moves the first occurrence to the back, or fails if there is none |
| `HandBuilding.Translate` | cpp_engine/src/gb_mahjong_adapter.cc:412-417 | The loop translates every tile number or stops at one that is not a tile |
| `HandBuilding.WinningTileLast` | cpp_engine/src/gb_mahjong_adapter.cc:424-431 | Appends the winning tile to thirteen tiles, moves it within fourteen, refuses anything else |
| `HandBuilding.ArrangeTiles` | cpp_engine/src/gb_mahjong_adapter.cc:412-431 | The concealed tiles come out as specified, the winning one last |
| `HandBuilding.BuildForActor` | cpp_engine/src/gb_mahjong_adapter.cc:313-361 | Builds the specified hand step by step, tables and lists in step, or fails with the specified error |
| `HandBuilding.BuildForValidation` | cpp_engine/src/gb_mahjong_adapter.cc:302-361 | Builds exactly the specified validation hand in a new object, or fails exactly as specified |
| `HandBuilding.BuildForScoring` | cpp_engine/src/gb_mahjong_adapter.cc:387-448 | Builds exactly the specified scoring hand in a new object, or fails exactly as specified; its last size check is dead |
| `HandBuilding.ScoringSize` | cpp_engine/src/gb_mahjong_adapter.cc:437-439 | Once the tiles are arranged the hand always has fourteen, counting a meld as three |
| `HandCounts.ExpandedSize` | cpp_engine/src/gb_mahjong_adapter.cc:233-240 | Well-formed melds expand to three tiles each and one more for each kong |
| `HandCounts.ExpandedCounts` | cpp_engine/src/gb_mahjong_adapter.cc:233-240 | No tile of a well-formed meld is lost, added or changed on the way into the packs |
| `HandCounts.ValidationTotal` | cpp_engine/src/gb_mahjong_adapter.cc:349-352 | A validated hand's concealed and exposed tiles are fourteen and one more for each kong |
| `HandCounts.ScoringTotal` | cpp_engine/src/gb_mahjong_adapter.cc:437-439 | So are a scored hand's, whatever the snapshot |
| `HandCounts.ScoringConcealed` | cpp_engine/src/gb_mahjong_adapter.cc:412-447 | A scored hand holds the snapshot's tiles, plus the winning one if they were thirteen, ascending but for the winning tile at the end |
| `Agreement.ReorderedHand` | cpp_engine/src/gb_mahjong_adapter.cc:412-447 | The order of a thirteen-tile snapshot does not matter |
| `Agreement.ValidationNeedsThirteen` | cpp_engine/src/gb_mahjong_adapter.cc:349-352 | Validation succeeds only on thirteen concealed tiles, counting a meld as three |
| `Agreement.FullPrivateHandRefused` | cpp_engine/src/gb_mahjong_adapter.cc:343-352 | A private hand that already holds the completing tile is scored but refused by validation |
| `Settlement.SumOfDeltas` | cpp_engine/src/gb_mahjong_adapter.cc:637-664 | The sum of all deltas in closed form, in the numbers of winner seats and paying seats |
| `Settlement.TotalsConservedIff` | cpp_engine/src/gb_mahjong_adapter.cc:661-662 | The sum of all totals stays what it was under exactly the same condition |
| `Settlement.OrdinarySettlement` | cpp_engine/src/gb_mahjong_adapter.cc:637-664 | With distinct seats, the winner and another discarder among them, nothing is created or lost |
| `Settlement.UnitFits` | cpp_engine/src/gb_mahjong_adapter.cc:637-640 | The unit never overflows 64 bits, for every base and every fan of its type |
| `Settlement.FourHandsFit` | cpp_engine/src/gb_mahjong_adapter.cc:637-664 | No settlement of up to four hands overflows while fan stay within 2^28 and scores within 2^62 |
| `Settlement.SettleHands` | cpp_engine/src/gb_mahjong_adapter.cc:637-664 | The loop is defined if and only if all results are 64-bit numbers, which is exactly when no operation of it overflows, and then pays every hand the fan times the base points, or the bare fan without, as the kind of win says |
| `Adapter.ProposeMeld` | cpp_engine/src/gb_mahjong_adapter.cc:576-594 | The loop proposes the consumed tiles followed by the claimed one |
| `Adapter.ValidateAction` | cpp_engine/src/gb_mahjong_adapter.cc:522-602 | The imperative operation, exceptions included, returns exactly the specified outcome, winning context and fan details among it, for any rule engine |
| `Adapter.CalculateScore` | cpp_engine/src/gb_mahjong_adapter.cc:604-667 | For every request: defined if and only if no operation overflows, and then exactly the specified outcome or error, for any rule engine |
| `Adapter.ScoreIsZeroSum` | cpp_engine/src/gb_mahjong_adapter.cc:604-667 | What CalculateScore hands out cancels, and totals are kept, for distinct seats, agreeing flags and another discarder |
| `Adapter.ProposedMeldEncodes` | cpp_engine/src/gb_mahjong_adapter.cc:576-594 | The meld that ValidateAction proposes encodes for exactly the well-formed claims |
| `Desertion.ConnectedIffHeld` | src/room.rs:446-744 | After every command list a user is connected if and only if some granted binding of theirs has not been followed by a disconnect of a connection registered for them |
| `Settlement.NobodyPays` | cpp_engine/src/gb_mahjong_adapter.cc:642-664 | For any list of hands, a discard win worth something whose discarder is not listed beside the winner creates one unit for each winner, and the sum is positive |
| `Settlement.NobodyWins` | cpp_engine/src/gb_mahjong_adapter.cc:642-664 | For any list of hands, a self-draw worth something with no hand in the winner's seat destroys one unit for each hand, and the sum is negative |
| `Settlement.StakeFits` | cpp_engine/src/gb_mahjong_adapter.cc:642-664 | No settlement of any number of hands overflows as long as the stake and the greatest score together fit |
| `Adapter.UnlistedDiscarder` | cpp_engine/src/gb_mahjong_adapter.cc:642-664 | Every scored discard win worth something that lists the winner's seat but no other discarder creates points |
| `Adapter.PopulateFanDetails` | cpp_engine/src/gb_mahjong_adapter.cc:258-281 | The loop lists the fans that were found |
| `Adapter.DetailsAre` | cpp_engine/src/gb_mahjong_adapter.cc:258-281 | The list holds each fan that was found exactly once, in ascending order, and no other |
| `Adapter.BuildWinningContext` | cpp_engine/src/gb_mahjong_adapter.cc:450-467 | The winning context names the win, its shape, its fans and their total |
| `EndToEnd.RequestsShowNothing` | src/room.rs:791-826 | After any run a room's request has all its parts but shows no concealed tile, no drawn tile and no meld |
| `EndToEnd.EmptyHandAnswer` | cpp_engine/src/gb_mahjong_adapter.cc:302-352 | On such a request the adapter refuses every win as an invalid context and accepts everything else |
| `EndToEnd.WinsAreRecognised` | src/room.rs:828-881 | The adapter takes a translated action for a win exactly if the client's action claims one |
| `Interleavings.FreshName` | src/app.rs:36-39 | A new connection's id is one that no session has |
| `RoomTask.RoomState.RebindSlot` | src/room.rs:569-592 | The slot drops its old connection and takes the new one, in both maps |
| `RoomTask.RoomState.ReportAnswer` | src/room.rs:683-726 | Whatever the rule engine answers, the asker is told in one rejection of the matching code |
| `RoomTask.RoomState.RefuseResume` | src/room.rs:529-567 | A refused resume is one numbered rejection to the asker |
| `HandBuilding.Handtiles.AddPack` | cpp_engine/src/gb_mahjong_adapter.cc:235-239 | Appends a pack and counts every tile it expands to |
| `Progress.SettledIff` | src/room.rs:683 | Awaiting the rule engine alone with no call under way is being settled |
| `Suspension.StaysWaiting` | src/room.rs:683 | Where the rule engine alone is awaited, no sequence of the server's own steps changes anything |
| `Delivery.StepReaches` | src/room.rs:1039-1145 | A command sends on the channel it hands over and on channels that feed a slot, and on no other |
| `Delivery.SendsOnlyWhereHanded` | src/room.rs:1039-1145 | Over any run a room sends only on channels that a join or a resume of that run handed to it |
| `Delivery.OneSender` | src/ws.rs:112-201 | Only one room ever sends on the channel of a session that named one room |
| `Settlement.OnlyTheWinnerGains` | cpp_engine/src/gb_mahjong_adapter.cc:642-664 | Every row moves its own hand's score by its delta; only the winner's seat gains, all others lose one unit on self-draw and only the discarder's otherwise |
| `Adapter.UnseatedWinner` | cpp_engine/src/gb_mahjong_adapter.cc:363-373 | Every scored self-draw worth something that lists nobody in the winner's seat, its winner being only flagged, destroys points |
| `Table.PublicStateShows` | src/room.rs:1147-1204 | The public state lists one entry for each taken seat, in seat order, each field of the slot under its own name |
| `Frames.StepSays` | src/room.rs:377-401 | Every frame that a command adds to a channel has the number, addressee, reason, code, deadline and contents that the command calls for |
| `Frames.StepCounts` | src/room.rs:1039-1145 | A command adds to each channel exactly one answer to the asker and one frame of each broadcast per listening slot, or nothing |
| `RoomCore.FourReadyIff` | src/room.rs:502-506 | Counting the players and looking at every status comes to East, South, West and North all being taken by players who are Ready |
| `RoomCore.RoundAfter` | src/room.rs:348-375 | After every command list the room is still in the first hand of its match: no command changes its names or its round |
| `Introductions.SlotsIntroduced` | src/room.rs:403-481 | After every command list each slot has the display name its user gave at their first join, and the starting score |
| `Requests.TokensDiffer` | src/room.rs:444 | Two slots of one room never expect the same token |
| `Requests.DisconnectUnwires` | src/room.rs:729-748 | A registered connection's disconnect unregisters it and takes connection and channel off its player's slot, and changes nothing else |
| `Asking.CodeTells` | src/room.rs:600-727 | The code of a rejected action is the one of what stops it first: a stale match or round, a number that cannot be read, or the engine's verdict by number |
| `Asking.AsksIff` | src/room.rs:600-683 | The rule engine is asked exactly about an action of a seated player that names match and round, is no toggle and can be read |
| `Translation.MisreadIff` | src/room.rs:828-881 | The translator fails with a code exactly on the actions whose first unknown number has that code |
| `Routing.ReceiveIssues` | src/ws.rs:112-201 | An idle session issues exactly one dispatch for each frame meant for a room, carrying the frame's own request, and nothing for any other |
| `Routing.JoinsAlwaysHeard` | src/room.rs:104-123 | Under every interleaving, every join that has ended got into its room's queue |
| `Routing.OnlyJoinsCreate` | src/room.rs:258-288 | Every room in the registry was asked for by a join: no other command creates one |
| `Melds.EncodeTells` | cpp_engine/src/gb_mahjong_adapter.cc:167-231 | Every well-formed meld's pack, field by field: its kind, the middle or only tile, and an offer that tells a run's claimed tile or the source seat |
| `HandSpec.FindActorIff` | cpp_engine/src/gb_mahjong_adapter.cc:26-42 | The search finds a player if and only if that player sits in the seat and nobody listed earlier does, and nobody if and only if nobody sits there |
| `HandSpec.FindWinnerIff` | cpp_engine/src/gb_mahjong_adapter.cc:363-373 | The search finds a hand if and only if it is flagged or in the winner's seat and none listed earlier is, and none if and only if there is none |
| `Settlement.SettlePays` | cpp_engine/src/gb_mahjong_adapter.cc:637-664 | Every hand is paid the fan times the base points, or the bare fan without base points: by all others for a win of kind 1 or 4, by the discarder alone otherwise |

## Left out

- Message texts and explanations, the names, codes, values and descriptions that a fan's number decides, and the room-config constants: no decision of the code depends on them.
- Pings, text frames and undecodable frames, and what the session itself answers to heartbeats and empty frames with a counter of its own: none of it reaches a room.
- The rejections with number 0 that the registry sends for a missing room: the model records that the command was not delivered, not the frame.
- `session_token` and `client_version` of requests: the code does not read them.
- Clocks: each command takes an arbitrary reading for each recipient as an input; that clocks move forward is not modelled.
- The 64-bit wrap of the event and connection counters: counters are unbounded.
- A vanished receiver, a stopped room task and a panic: "sent" means enqueued, and a registered room's task runs for ever.
- That the rule engine answers at all: an answer is an event from outside that may never come, and Progress.NeverStuck, Progress.ComesToRest and Progress.EveryoneIsGoneInTheEnd speak of the case where it does.
- The fairness of the lock, and the size of the outbound channels, which the source leaves unbounded.
- Of a validation request: the rule config but for its presence, the parts of the round context that the adapter does not read, and the scores, counts and discards of its player states.
- The gRPC transport between the components, which `EndToEnd` takes to deliver requests and answers as they are.
- Client and engine enums are compared by number, since both protocols list the same names with the same numbers.
- The claim windows, drawing, discarding and round lifecycle planned in the repository's own README, and the SQL schema: there is no code for them.
- The vendored library's judging and counting: arbitrary functions of the hand. Its sort is taken to order tiles by number, and its packs to expand as `pack.h` says.
- Tile numbers are unbounded integers; that subtracting one from the least 32-bit number overflows is not modelled.
- Settlement.SettleHands: says nothing of the rows where an operation overflows, because signed overflow has no meaning in the source's language; Settlement.StakeFits says when that certainly does not happen.
- Adapter.CalculateScore: likewise says nothing of the outcome there.
- HandBuilding.Handtiles.constructor: leaves the flags arbitrary, as the source leaves them uninitialised until they are set.
- Quiescence.AllQuietOnEveryRoom: needs each session to name one room and one user; Desertion.QuietRoomDesertedIff is the exact statement without that.
