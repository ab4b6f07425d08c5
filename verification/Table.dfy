// What a room's public state shows, field by field (src/room.rs:1147-1204).
module Table {
  import opened Protocol
  import opened RoomSpec

  /** How many of the first k seats are taken. */
  function Taken(players: map<Seat, PlayerSlot>, k: nat): nat
    requires k <= 4
  {
    if k == 0 then 0 else Taken(players, k - 1) + if SeatAt(k - 1) in players then 1 else 0
  }

  /** The entry gives each field of the slot under its own name. */
  ghost predicate Shows(p: PlayerState, slot: PlayerSlot, dealer: Seat) {
    && p.userId == slot.userId && p.displayName == slot.displayName
    && p.seat == slot.seat && p.status == slot.status && p.score == slot.score
    && p.isConnected == slot.connected && p.autoPlayEnabled == slot.autoPlayEnabled
    && (p.isDealer <==> slot.seat == dealer)
  }

  /** The view has the room's phase and round, and one entry for each taken seat, in the order of the seats. */
  ghost predicate ShowsTable(view: PublicView, core: Core) {
    && view.phase == core.phase && view.round == core.round
    && |view.players| == Taken(core.playersBySeat, 4)
    && forall k: nat | k < 4 && SeatAt(k) in core.playersBySeat ::
         && Taken(core.playersBySeat, k) < |view.players|
         && Shows(view.players[Taken(core.playersBySeat, k)], core.playersBySeat[SeatAt(k)], core.round.dealerSeat)
  }

  /** How many entries the player list has for a seat. */
  function One(players: map<Seat, PlayerSlot>, seat: Seat): nat {
    if seat in players then 1 else 0
  }

  lemma TakenSums(players: map<Seat, PlayerSlot>)
    ensures Taken(players, 0) == 0 && Taken(players, 1) == One(players, East)
    ensures Taken(players, 2) == One(players, East) + One(players, South)
    ensures Taken(players, 3) == One(players, East) + One(players, South) + One(players, West)
    ensures Taken(players, 4) == One(players, East) + One(players, South) + One(players, West) + One(players, North)
  {
    assert Taken(players, 1) == Taken(players, 0) + One(players, SeatAt(0));
    assert Taken(players, 2) == Taken(players, 1) + One(players, SeatAt(1));
    assert Taken(players, 3) == Taken(players, 2) + One(players, SeatAt(2));
  }

  /** Where each of four parts begins in the whole. */
  lemma FourParts<T>(e: seq<T>, s: seq<T>, w: seq<T>, n: seq<T>)
    ensures |e + s + w + n| == |e| + |s| + |w| + |n|
    ensures e != [] ==> (e + s + w + n)[0] == e[0]
    ensures s != [] ==> (e + s + w + n)[|e|] == s[0]
    ensures w != [] ==> (e + s + w + n)[|e| + |s|] == w[0]
    ensures n != [] ==> (e + s + w + n)[|e| + |s| + |w|] == n[0]
  {
  }

  lemma ListedShows(players: map<Seat, PlayerSlot>, seat: Seat, dealer: Seat)
    ensures |Listed(players, seat, dealer)| == One(players, seat)
    ensures seat in players ==> Shows(Listed(players, seat, dealer)[0], players[seat], dealer)
  {
  }

  lemma ListedAt(players: map<Seat, PlayerSlot>, dealer: Seat, k: nat, list: seq<PlayerState>)
    requires k < 4 && SeatAt(k) in players && list == PlayerList(players, dealer)
    ensures Taken(players, k) < |list| == Taken(players, 4)
    ensures Shows(list[Taken(players, k)], players[SeatAt(k)], dealer)
  {
    TakenSums(players);
    FourParts(Listed(players, East, dealer), Listed(players, South, dealer),
              Listed(players, West, dealer), Listed(players, North, dealer));
    ListedShows(players, East, dealer);
    ListedShows(players, South, dealer);
    ListedShows(players, West, dealer);
    ListedShows(players, North, dealer);
  }

  lemma PublicStateShows(core: Core)
    ensures ShowsTable(PublicState(core), core)
  {
    var players, dealer := core.playersBySeat, core.round.dealerSeat;
    var list := PlayerList(players, dealer);
    TakenSums(players);
    forall k: nat | k < 4 && SeatAt(k) in players
      ensures Taken(players, k) < |list| && Shows(list[Taken(players, k)], players[SeatAt(k)], dealer)
    {
      ListedAt(players, dealer, k, list);
    }
  }
}
