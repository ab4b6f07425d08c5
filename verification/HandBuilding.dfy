// The hand under construction, its count tables, and the two builders that fill
// it step by step (cpp_engine/src/gb_mahjong_adapter.cc:149-165, 233-241,
// 302-448; cpp_engine/third_party/GB-Mahjong/mahjong/handtiles.h:17-110).
module HandBuilding {
  import opened Wrappers
  import opened Tiles
  import opened EngineProtocol
  import opened Melds
  import opened HandSpec

  // ---------- count tables ----------

  type Table = map<TileId, nat>

  /** Reading a missing cell of the table yields zero. */
  function At(table: Table, id: TileId): nat {
    if id in table then table[id] else 0
  }

  function Bump(table: Table, id: TileId): Table {
    table[id := At(table, id) + 1]
  }

  /** A table with an empty cell for each id of a range. */
  function Zeroes(low: TileId, high: TileId): Table
    decreases high - low
  {
    if low >= high then map[] else Zeroes(low, high - 1)[high - 1 := 0]
  }

  /** The table after counting some tiles one by one. */
  function TableOf(low: TileId, high: TileId, tiles: seq<TileId>): Table {
    if tiles == [] then Zeroes(low, high)
    else Bump(TableOf(low, high, tiles[..|tiles| - 1]), tiles[|tiles| - 1])
  }

  lemma {:induction false} ZeroesIs(low: TileId, high: TileId)
    ensures forall id :: id in Zeroes(low, high) <==> low <= id < high
    ensures forall id | id in Zeroes(low, high) :: Zeroes(low, high)[id] == 0
    decreases high - low
  {
    if low < high {
      ZeroesIs(low, high - 1);
    }
  }

  /** A table has a cell for every id of its range and every listed tile, holding how often it is listed. */
  lemma {:induction false} TableIs(low: TileId, high: TileId, tiles: seq<TileId>)
    ensures forall id :: id in TableOf(low, high, tiles) <==> low <= id < high || id in multiset(tiles)
    ensures forall id :: At(TableOf(low, high, tiles), id) == multiset(tiles)[id]
  {
    if tiles == [] {
      ZeroesIs(low, high);
    } else {
      var front, last := tiles[..|tiles| - 1], tiles[|tiles| - 1];
      TableIs(low, high, front);
      assert tiles == front + [last];
    }
  }

  lemma Bumped(low: TileId, high: TileId, tiles: seq<TileId>, tile: TileId)
    ensures Bump(TableOf(low, high, tiles), tile) == TableOf(low, high, tiles + [tile])
  {
    assert (tiles + [tile])[..|tiles|] == tiles;
  }

  /** The same tiles make the same table, whatever order they were counted in. */
  lemma SameTable(low: TileId, high: TileId, a: seq<TileId>, b: seq<TileId>)
    requires multiset(a) == multiset(b)
    ensures TableOf(low, high, a) == TableOf(low, high, b)
  {
    TableIs(low, high, a);
    TableIs(low, high, b);
    var s, t := TableOf(low, high, a), TableOf(low, high, b);
    assert forall id :: id in s <==> id in t;
    forall id | id in s
      ensures s[id] == t[id]
    {
      assert At(s, id) == At(t, id);
    }
  }

  /** Emptying a cell that is empty changes nothing. */
  lemma SeededAgain(low: TileId, high: TileId, id: TileId)
    requires low <= id < high
    ensures Zeroes(low, high)[id := 0] == Zeroes(low, high)
  {
    ZeroesIs(low, high);
  }

  /** The tiles that packs expand to, one pack after the other. */
  function Expanded(packs: seq<Pack>): seq<TileId> {
    if packs == [] then [] else Expanded(packs[..|packs| - 1]) + GetAllTile(packs[|packs| - 1])
  }

  lemma ExpandedMore(packs: seq<Pack>, pack: Pack)
    ensures Expanded(packs + [pack]) == Expanded(packs) + GetAllTile(pack)
  {
    assert (packs + [pack])[..|packs|] == packs;
  }

  /** All but the last tile in ascending order. */
  function SortedButLast(lipai: seq<TileId>): seq<TileId>
    requires lipai != []
  {
    Sorted(lipai[..|lipai| - 1]) + [lipai[|lipai| - 1]]
  }

  lemma SortedTable(lipai: seq<TileId>)
    requires lipai != []
    ensures TableOf(TILE_1M, TILE_SIZE, SortedButLast(lipai)) == TableOf(TILE_1M, TILE_SIZE, lipai)
  {
    assert lipai == lipai[..|lipai| - 1] + [lipai[|lipai| - 1]];
    SameTable(TILE_1M, TILE_SIZE, lipai, SortedButLast(lipai));
  }

  // ---------- one element at a time ----------

  /** The first meld that cannot be encoded decides the error. */
  lemma EncodeNext(melds: seq<Meld>, i: nat, actor: int)
    requires i < |melds| && EncodeAll(melds[..i], actor).Ok?
    ensures Encode(melds[i], actor).Ok? ==>
              EncodeAll(melds[..i + 1], actor) == Ok(EncodeAll(melds[..i], actor).value + [Encode(melds[i], actor).value])
    ensures Encode(melds[i], actor).Err? ==> EncodeAll(melds, actor) == Err(Encode(melds[i], actor).error)
  {
    assert melds[..i + 1][..i] == melds[..i];
    if Encode(melds[i], actor).Err? {
      EncodeStops(melds, i + 1, actor);
    }
  }

  lemma {:induction false} EncodeStops(melds: seq<Meld>, i: nat, actor: int)
    requires i <= |melds| && EncodeAll(melds[..i], actor).Err?
    ensures EncodeAll(melds, actor) == EncodeAll(melds[..i], actor)
  {
    if i < |melds| {
      assert melds[..|melds| - 1][..i] == melds[..i];
      EncodeStops(melds[..|melds| - 1], i, actor);
    } else {
      assert melds[..i] == melds;
    }
  }

  lemma NextTile(numbers: seq<int>, i: nat)
    requires i < |numbers| && ToTiles(numbers[..i]).Ok?
    ensures ToTile(numbers[i]).Ok? ==>
              ToTiles(numbers[..i + 1]) == Ok(ToTiles(numbers[..i]).value + [ToTile(numbers[i]).value])
    ensures ToTile(numbers[i]).Err? ==> ToTiles(numbers) == Err(ToTile(numbers[i]).error)
  {
    assert numbers[..i + 1][..i] == numbers[..i];
  }

  // ---------- the hand ----------

  class Handtiles {
    var fulu: seq<Pack>
    var lipai: seq<TileId>
    var huapai: seq<TileId>
    var fuluTable: Table
    var lipaiTable: Table
    var huapaiTable: Table
    var lastMark: Mark
    var quanfeng: TileId
    var menfeng: TileId
    var zimo: bool
    var juezhang: int
    var haidi: bool
    var gang: bool

    /** Every flag holds whatever it happens to hold. */
    constructor ()
      ensures fulu == [] && lipai == [] && huapai == [] && lastMark == Unmarked
      ensures fuluTable == map[] && lipaiTable == map[] && huapaiTable == map[]
    {
      fulu, lipai, huapai, lastMark := [], [], [], Unmarked;
      fuluTable, lipaiTable, huapaiTable := map[], map[], map[];
    }

    function Contents(): Hand
      reads this
    {
      Hand(quanfeng, menfeng, zimo, juezhang, haidi, gang, fulu, lipai, lastMark, huapai)
    }

    /** The tables count exactly the listed tiles, with a cell for each tile of a game. */
    ghost predicate Indexed()
      reads this
    {
      && fuluTable == TableOf(TILE_1M, TILE_SIZE, Expanded(fulu))
      && lipaiTable == TableOf(TILE_1M, TILE_SIZE, lipai)
      && huapaiTable == TableOf(TILE_MEI, TILE_DONG + 1, huapai)
    }

    /** The second loop zeroes the cells of the flowers in the concealed tiles' table once more. */
    method SeedTables()
      requires fulu == [] && lipai == [] && huapai == []
      requires fuluTable == map[] && lipaiTable == map[] && huapaiTable == map[]
      modifies this`fuluTable, this`lipaiTable, this`huapaiTable
      ensures Indexed()
    {
      for tile := TILE_1M to TILE_SIZE
        invariant fuluTable == Zeroes(TILE_1M, tile) && lipaiTable == Zeroes(TILE_1M, tile) && huapaiTable == map[]
      {
        fuluTable := fuluTable[tile := 0];
        lipaiTable := lipaiTable[tile := 0];
      }
      for tile := TILE_MEI to TILE_DONG + 1
        invariant fuluTable == Zeroes(TILE_1M, TILE_SIZE) && lipaiTable == Zeroes(TILE_1M, TILE_SIZE)
        invariant huapaiTable == Zeroes(TILE_MEI, tile)
      {
        huapaiTable := huapaiTable[tile := 0];
        SeededAgain(TILE_1M, TILE_SIZE, tile);
        lipaiTable := lipaiTable[tile := 0];
      }
    }

    method AddLipaiTile(tile: TileId)
      requires Indexed()
      modifies this`lipai, this`lipaiTable
      ensures Indexed() && Contents() == old(Contents()).(lipai := old(lipai) + [tile])
    {
      var table := Bump(lipaiTable, tile);
      assert table == TableOf(TILE_1M, TILE_SIZE, lipai + [tile]) by {
        Bumped(TILE_1M, TILE_SIZE, lipai, tile);
      }
      lipai := lipai + [tile];
      lipaiTable := table;
    }

    method AddFlower(flower: int) returns (r: Result<(), Error>)
      requires Indexed()
      modifies this`huapai, this`huapaiTable
      ensures Indexed()
      ensures r.Err? <==> ToTile(flower).Err?
      ensures r.Err? ==> r.error == ToTile(flower).error && Contents() == old(Contents())
      ensures r.Ok? ==> Contents() == old(Contents()).(huapai := old(huapai) + [ToTile(flower).value])
    {
      var tile :- ToTile(flower);
      var table := Bump(huapaiTable, tile);
      assert table == TableOf(TILE_MEI, TILE_DONG + 1, huapai + [tile]) by {
        Bumped(TILE_MEI, TILE_DONG + 1, huapai, tile);
      }
      huapai := huapai + [tile];
      huapaiTable := table;
      r := Ok(());
    }

    /** Counts the tiles of one more pack. */
    method CountPack(all: seq<TileId>, ghost before: seq<TileId>)
      requires fuluTable == TableOf(TILE_1M, TILE_SIZE, before)
      modifies this`fuluTable
      ensures fuluTable == TableOf(TILE_1M, TILE_SIZE, before + all)
    {
      assert before + all[..0] == before;
      for i := 0 to |all|
        invariant fuluTable == TableOf(TILE_1M, TILE_SIZE, before + all[..i])
      {
        Bumped(TILE_1M, TILE_SIZE, before + all[..i], all[i]);
        assert before + all[..i] + [all[i]] == before + all[..i + 1];
        fuluTable := Bump(fuluTable, all[i]);
      }
      assert all[..|all|] == all;
    }

    /** Adds a pack that is already encoded. */
    method AddPack(pack: Pack)
      requires Indexed()
      modifies this`fulu, this`fuluTable
      ensures Indexed() && Contents() == old(Contents()).(fulu := old(fulu) + [pack])
    {
      CountPack(GetAllTile(pack), Expanded(fulu));
      assert fuluTable == TableOf(TILE_1M, TILE_SIZE, Expanded(fulu + [pack])) by {
        ExpandedMore(fulu, pack);
      }
      fulu := fulu + [pack];
    }

    method AddMeld(meld: Meld, actor: int) returns (r: Result<(), Error>)
      requires Indexed()
      modifies this`fulu, this`fuluTable
      ensures Indexed()
      ensures r.Err? <==> Encode(meld, actor).Err?
      ensures r.Err? ==> r.error == Encode(meld, actor).error && Contents() == old(Contents())
      ensures r.Ok? ==> Contents() == old(Contents()).(fulu := old(fulu) + [Encode(meld, actor).value])
    {
      var pack :- Encode(meld, actor);
      AddPack(pack);
      r := Ok(());
    }

    /** Adds melds, then flowers. */
    method AddShown(melds: seq<Meld>, flowers: seq<int>, actor: int) returns (r: Result<(), Error>)
      requires Indexed() && fulu == [] && huapai == []
      modifies this`fulu, this`fuluTable, this`huapai, this`huapaiTable
      ensures Indexed()
      ensures r.Err? <==> EncodeAll(melds, actor).Err? || ToTiles(flowers).Err?
      ensures r.Err? ==>
                r.error == if EncodeAll(melds, actor).Err? then EncodeAll(melds, actor).error else ToTiles(flowers).error
      ensures r.Ok? ==> Contents() == old(Contents()).(fulu := EncodeAll(melds, actor).value,
                                                       huapai := ToTiles(flowers).value)
    {
      var added :- AddMelds(melds, actor);
      r := AddFlowers(flowers);
    }

    method SetRound(prevailing: TileId, seat: TileId, winType: int, lastTile: bool)
      modifies this`quanfeng, this`menfeng, this`zimo, this`juezhang, this`haidi, this`gang
      ensures Contents() == old(Contents()).(quanfeng := prevailing, menfeng := seat, zimo := SelfDrawn(winType),
                                             juezhang := 0, haidi := lastTile, gang := KongWin(winType))
    {
      quanfeng, menfeng := prevailing, seat;
      zimo, juezhang, haidi, gang := SelfDrawn(winType), 0, lastTile, KongWin(winType);
    }

    /** Sets the winds and the flags of the win, then adds melds and flowers. */
    method Start(prevailingWind: int, seat: int, winType: Result<int, Error>, lastTile: bool,
                 melds: seq<Meld>, flowers: seq<int>) returns (r: Result<(), Error>)
      requires Indexed() && fulu == [] && lipai == [] && huapai == [] && lastMark == Unmarked
      modifies this
      ensures Indexed()
      ensures r.Err? <==> Shell(prevailingWind, seat, winType, lastTile, melds, flowers).Err?
      ensures r.Err? ==> r.error == Shell(prevailingWind, seat, winType, lastTile, melds, flowers).error
      ensures r.Ok? ==> Contents() == Shell(prevailingWind, seat, winType, lastTile, melds, flowers).value
    {
      var prevailing :- Wind(prevailingWind);
      var own :- Wind(seat);
      var win :- winType;
      SetRound(prevailing, own, win, lastTile);
      r := AddShown(melds, flowers, seat);
    }

    method MarkLast()
      requires lipai != []
      modifies this`lastMark
      ensures Contents() == old(Contents()).(lastMark := if zimo then Zimo else Chonghu)
    {
      lastMark := if zimo then Zimo else Chonghu;
    }

    method SortLipaiWithoutLastOne()
      requires Indexed() && lipai != []
      modifies this`lipai
      ensures Indexed()
      ensures Contents() == old(Contents()).(lipai := SortedButLast(old(lipai)))
    {
      SortedTable(lipai);
      lipai := Sorted(lipai[..|lipai| - 1]) + [lipai[|lipai| - 1]];
    }

    /** Adds melds until one cannot be encoded. */
    method AddMelds(melds: seq<Meld>, actor: int) returns (r: Result<(), Error>)
      requires Indexed() && fulu == []
      modifies this`fulu, this`fuluTable
      ensures Indexed()
      ensures r.Err? <==> EncodeAll(melds, actor).Err?
      ensures r.Err? ==> r.error == EncodeAll(melds, actor).error
      ensures r.Ok? ==> Contents() == old(Contents()).(fulu := EncodeAll(melds, actor).value)
    {
      for i := 0 to |melds|
        invariant Indexed() && EncodeAll(melds[..i], actor) == Ok(fulu)
        invariant Contents() == old(Contents()).(fulu := fulu)
      {
        EncodeNext(melds, i, actor);
        var added :- AddMeld(melds[i], actor);
      }
      assert melds[..|melds|] == melds;
      r := Ok(());
    }

    /** Adds flowers until one is not a tile. */
    method AddFlowers(flowers: seq<int>) returns (r: Result<(), Error>)
      requires Indexed() && huapai == []
      modifies this`huapai, this`huapaiTable
      ensures Indexed()
      ensures r.Err? <==> ToTiles(flowers).Err?
      ensures r.Err? ==> r.error == ToTiles(flowers).error
      ensures r.Ok? ==> Contents() == old(Contents()).(huapai := ToTiles(flowers).value)
    {
      for i := 0 to |flowers|
        invariant Indexed() && ToTiles(flowers[..i]) == Ok(huapai)
        invariant Contents() == old(Contents()).(huapai := huapai)
      {
        NextTile(flowers, i);
        var added :- AddFlower(flowers[i]);
      }
      assert flowers[..|flowers|] == flowers;
      r := Ok(());
    }

    /** Adds concealed tiles until one is not a tile. */
    method AddConcealed(concealed: seq<int>) returns (r: Result<(), Error>)
      requires Indexed() && lipai == []
      modifies this`lipai, this`lipaiTable
      ensures Indexed()
      ensures r.Err? <==> ToTiles(concealed).Err?
      ensures r.Err? ==> r.error == ToTiles(concealed).error
      ensures r.Ok? ==> Contents() == old(Contents()).(lipai := ToTiles(concealed).value)
    {
      for i := 0 to |concealed|
        invariant Indexed() && ToTiles(concealed[..i]) == Ok(lipai)
        invariant Contents() == old(Contents()).(lipai := lipai)
      {
        NextTile(concealed, i);
        var tile :- ToTile(concealed[i]);
        AddLipaiTile(tile);
      }
      assert concealed[..|concealed|] == concealed;
      r := Ok(());
    }

    /** Adds the concealed tiles, then the drawn or the claimed one. */
    method AddPrivateHand(candidate: CandidateAction, held: PrivateHand) returns (r: Result<(), Error>)
      requires Indexed() && lipai == []
      modifies this`lipai, this`lipaiTable
      ensures Indexed()
      ensures r.Err? <==> ValidationTiles(zimo, candidate, held).Err?
      ensures r.Err? ==> r.error == ValidationTiles(zimo, candidate, held).error
      ensures r.Ok? ==>
                var tiles := ValidationTiles(zimo, candidate, held).value;
                Contents() == old(Contents()).(lipai := tiles.0 + [tiles.1])
    {
      var concealed :- AddConcealed(held.concealed);
      var number :- LastTileNumber(zimo, candidate, held.drawnTile);
      var last :- ToTile(number);
      AddLipaiTile(last);
      r := Ok(());
    }

    /** Marks the last tile and sorts the others. */
    method Complete(ghost shell: Hand, ghost front: seq<TileId>, ghost last: TileId)
      requires Indexed() && Contents() == shell.(lipai := front + [last])
      modifies this`lipai, this`lastMark
      ensures Indexed() && Contents() == Completed(shell, front, last)
    {
      assert lipai[..|lipai| - 1] == front;
      MarkLast();
      SortLipaiWithoutLastOne();
    }

    /** Adds tiles that are already translated. */
    method AddTiles(tiles: seq<TileId>)
      requires Indexed() && lipai == []
      modifies this`lipai, this`lipaiTable
      ensures Indexed() && Contents() == old(Contents()).(lipai := tiles)
    {
      for i := 0 to |tiles|
        invariant Indexed() && lipai == tiles[..i]
        invariant Contents() == old(Contents()).(lipai := lipai)
      {
        assert tiles[..i + 1] == tiles[..i] + [tiles[i]];
        AddLipaiTile(tiles[i]);
      }
      assert tiles[..|tiles|] == tiles;
    }
  }

  // ---------- searching ----------

  method FindActorState(players: seq<EnginePlayerState>, seat: int) returns (r: Option<EnginePlayerState>)
    ensures r == FindActor(players, seat)
    ensures r.Some? ==> ActorIs(players, seat, r.value)
    ensures r.None? ==> forall p | p in players :: p.seat != seat
  {
    for i := 0 to |players|
      invariant FindActor(players, seat) == FindActor(players[i..], seat)
    {
      if players[i].seat == seat {
        FindActorIff(players, seat, players[i]);
        return Some(players[i]);
      }
    }
    FindActorIff(players, seat, EnginePlayerState(seat, [], []));
    r := None;
  }

  method FindWinner(hands: seq<HandSnapshot>, winnerSeat: int) returns (r: Option<HandSnapshot>)
    ensures r == FindWinnerHand(hands, winnerSeat)
    ensures r.Some? ==> WinnerIs(hands, winnerSeat, r.value)
    ensures r.None? ==> forall h | h in hands :: !h.winner && h.seat != winnerSeat
  {
    for i := 0 to |hands|
      invariant FindWinnerHand(hands, winnerSeat) == FindWinnerHand(hands[i..], winnerSeat)
    {
      if IsWinner(hands[i], winnerSeat) {
        FindWinnerIff(hands, winnerSeat, hands[i]);
        return Some(hands[i]);
      }
    }
    FindWinnerIff(hands, winnerSeat, HandSnapshot(winnerSeat, [], [], [], 0, true));
    r := None;
  }

  lemma {:induction false} WithoutFirstAt(tiles: seq<TileId>, i: nat, tile: TileId)
    requires i < |tiles| && tiles[i] == tile && forall j | 0 <= j < i :: tiles[j] != tile
    ensures WithoutFirst(tiles, tile) == tiles[..i] + tiles[i + 1..]
  {
    if i > 0 {
      var rest := tiles[1..];
      WithoutFirstAt(rest, i - 1, tile);
      assert [tiles[0]] + (rest[..i - 1] + rest[i..]) == tiles[..i] + tiles[i + 1..];
    }
  }

  /** Finds the first occurrence, erases it and appends it. */
  method MoveOneTileToBack(tiles: seq<TileId>, tile: TileId) returns (r: Result<seq<TileId>, Error>)
    ensures tile !in tiles ==> r == Err(WinningTileMissing)
    ensures tile in tiles ==> r == Ok(WithoutFirst(tiles, tile) + [tile])
  {
    for i := 0 to |tiles|
      invariant forall j | 0 <= j < i :: tiles[j] != tile
    {
      if tiles[i] == tile {
        WithoutFirstAt(tiles, i, tile);
        return Ok(tiles[..i] + tiles[i + 1..] + [tile]);
      }
    }
    r := Err(WinningTileMissing);
  }

  method Translate(numbers: seq<int>) returns (r: Result<seq<TileId>, Error>)
    ensures r == ToTiles(numbers)
  {
    var tiles := [];
    for i := 0 to |numbers|
      invariant ToTiles(numbers[..i]) == Ok(tiles)
    {
      NextTile(numbers, i);
      var tile :- ToTile(numbers[i]);
      tiles := tiles + [tile];
    }
    assert numbers[..|numbers|] == numbers;
    r := Ok(tiles);
  }

  // ---------- the two builders ----------

  method BuildForActor(request: ValidationRequest, actor: EnginePlayerState, held: PrivateHand)
    returns (r: Result<Handtiles, Error>)
    ensures match ActorHand(request, actor, held)
      case Ok(hand) => r.Ok? && fresh(r.value) && r.value.Indexed() && r.value.Contents() == hand
      case Err(error) => r == Err(error)
  {
    var handtiles := new Handtiles();
    handtiles.SeedTables();
    var started :- handtiles.Start(request.prevailingWind, request.actorSeat, ExtractWinType(request.candidate),
                                   request.isLastTile, actor.melds, actor.flowers);
    ghost var shell := handtiles.Contents();
    var added :- handtiles.AddPrivateHand(request.candidate, held);
    if 3 * |handtiles.fulu| + |handtiles.lipai| != HAND_SIZE {
      return Err(NotFourteen);
    }
    ghost var tiles := ValidationTiles(shell.zimo, request.candidate, held).value;
    handtiles.Complete(shell, tiles.0, tiles.1);
    r := Ok(handtiles);
  }

  method BuildForValidation(request: ValidationRequest) returns (r: Result<Handtiles, Error>)
    ensures match ValidationHand(request)
      case Ok(hand) => r.Ok? && fresh(r.value) && r.value.Indexed() && r.value.Contents() == hand
      case Err(error) => r == Err(error)
  {
    var actor := FindActorState(request.players, request.actorSeat);
    if actor.None? {
      return Err(NoActor);
    }
    if request.privateHand.None? {
      return Err(NoPrivateHand);
    }
    r := BuildForActor(request, actor.value, request.privateHand.value);
  }

  /** Puts the winning tile last: appended to thirteen tiles, moved within fourteen. */
  method WinningTileLast(visible: int, concealed: seq<TileId>, winning: TileId)
    returns (r: Result<seq<TileId>, Error>)
    ensures r.Err? <==> FrontTiles(visible, concealed, winning).Err?
    ensures r.Err? ==> r.error == FrontTiles(visible, concealed, winning).error
    ensures r.Ok? ==> r.value == FrontTiles(visible, concealed, winning).value + [winning]
  {
    if visible == 13 {
      r := Ok(concealed + [winning]);
    } else if visible == HAND_SIZE {
      r := MoveOneTileToBack(concealed, winning);
    } else {
      r := Err(BadHandSize);
    }
  }

  /** The concealed tiles as they are added, the winning one last. */
  method ArrangeTiles(request: ScoreRequest, hand: HandSnapshot) returns (r: Result<seq<TileId>, Error>)
    ensures match ScoringTiles(request, hand)
      case Ok(tiles) => r == Ok(tiles.0 + [tiles.1])
      case Err(error) => r == Err(error)
  {
    var concealed :- Translate(hand.concealed);
    var visible := 3 * |hand.melds| + |hand.concealed|;
    var winning :- ToTile(request.winningTile);
    r := WinningTileLast(visible, concealed, winning);
  }

  method BuildForScoring(request: ScoreRequest, hand: HandSnapshot) returns (r: Result<Handtiles, Error>)
    ensures match ScoringHand(request, hand)
      case Ok(built) => r.Ok? && fresh(r.value) && r.value.Indexed() && r.value.Contents() == built
      case Err(error) => r == Err(error)
  {
    var handtiles := new Handtiles();
    handtiles.SeedTables();
    var started :- handtiles.Start(request.prevailingWind, hand.seat, Ok(request.winType), LastTileFlagged(request),
                                   hand.melds, hand.flowers);
    ghost var shell := handtiles.Contents();
    var tiles :- ArrangeTiles(request, hand);
    handtiles.AddTiles(tiles);
    ScoringSize(request, hand, shell);
    if 3 * |handtiles.fulu| + |handtiles.lipai| != HAND_SIZE {
      assert false;
    }
    handtiles.Complete(shell, ScoringTiles(request, hand).value.0, ScoringTiles(request, hand).value.1);
    r := Ok(handtiles);
  }

  /** Once the tiles are arranged, the hand has fourteen, counting a meld as three. */
  lemma ScoringSize(request: ScoreRequest, hand: HandSnapshot, shell: Hand)
    requires ScoringTiles(request, hand).Ok? && ScoringShell(request, hand) == Ok(shell)
    ensures 3 * |shell.fulu| + |ScoringTiles(request, hand).value.0| + 1 == HAND_SIZE
  {
    EncodeAllSize(hand.melds, hand.seat);
    var concealed, winning := ToTiles(hand.concealed).value, ToTile(request.winningTile).value;
    if winning in concealed {
      WithoutFirstRemoves(concealed, winning);
    }
  }
}
