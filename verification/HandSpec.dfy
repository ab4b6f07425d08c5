// The 14-tile hand that validation and scoring each build from their own
// request, as functions (cpp_engine/src/gb_mahjong_adapter.cc:26-147, 302-448).
module HandSpec {
  import opened Wrappers
  import opened Tiles
  import opened EngineProtocol
  import opened Melds

  const FLAG_LAST_TILE_DRAW := 5
  const FLAG_LAST_TILE_CLAIM := 6
  const HAND_SIZE := 14

  /** How a tile came in; only the last tile of a finished hand is marked. */
  datatype Mark = Unmarked | Zimo | Chonghu

  /** A hand as the vendored library is given it, but for its count tables. */
  datatype Hand = Hand(
    quanfeng: int, menfeng: int, zimo: bool, juezhang: int, haidi: bool, gang: bool,
    fulu: seq<Pack>, lipai: seq<TileId>, lastMark: Mark, huapai: seq<TileId>)

  // ---------- requests ----------

  type uint32 = x: int | 0 <= x <= 0xFFFF_FFFF
  type int32 = x: int | -0x8000_0000 <= x <= 0x7FFF_FFFF
  type int64 = x: int | -0x8000_0000_0000_0000 <= x <= 0x7FFF_FFFF_FFFF_FFFF

  datatype HandSnapshot = HandSnapshot(
    seat: int, concealed: seq<int>, melds: seq<Meld>, flowers: seq<int>, currentScore: int64, winner: bool)

  datatype ScoreRequest = ScoreRequest(
    hasRuleConfig: bool, hasRoundContext: bool, prevailingWind: int, isLastTile: bool, basePoints: uint32,
    winType: int, winnerSeat: int, discarderSeat: int, winningTile: int,
    hands: seq<HandSnapshot>, settlementFlags: seq<int>)

  // ---------- reading a request ----------

  function FindActor(players: seq<EnginePlayerState>, seat: int): Option<EnginePlayerState> {
    if players == [] then None
    else if players[0].seat == seat then Some(players[0])
    else FindActor(players[1..], seat)
  }

  /** The player sits in the seat, and nobody listed earlier does. */
  ghost predicate ActorIs(players: seq<EnginePlayerState>, seat: int, p: EnginePlayerState) {
    exists i :: 0 <= i < |players| && players[i] == p && p.seat == seat && forall j | 0 <= j < i :: players[j].seat != seat
  }

  lemma ActorIsStep(players: seq<EnginePlayerState>, seat: int, p: EnginePlayerState)
    requires players != []
    ensures ActorIs(players, seat, p)
       <==> if players[0].seat == seat then p == players[0] else ActorIs(players[1..], seat, p)
  {
    if ActorIs(players, seat, p) {
      var i :| 0 <= i < |players| && players[i] == p && p.seat == seat && forall j | 0 <= j < i :: players[j].seat != seat;
      if i > 0 {
        assert players[1..][i - 1] == p;
        assert forall j | 0 <= j < i - 1 :: players[1..][j] == players[j + 1];
      }
    }
    if players[0].seat != seat && ActorIs(players[1..], seat, p) {
      var rest := players[1..];
      var i :| 0 <= i < |rest| && rest[i] == p && p.seat == seat && forall j | 0 <= j < i :: rest[j].seat != seat;
      assert players[i + 1] == p;
      assert forall j | 0 < j < i + 1 :: players[j] == rest[j - 1];
    }
  }

  /** The search finds the first player in the seat, and nobody if and only if nobody sits there. */
  lemma {:induction false} FindActorIff(players: seq<EnginePlayerState>, seat: int, p: EnginePlayerState)
    ensures FindActor(players, seat) == Some(p) <==> ActorIs(players, seat, p)
    ensures FindActor(players, seat).None? <==> forall q | q in players :: q.seat != seat
  {
    if players != [] {
      FindActorIff(players[1..], seat, p);
      ActorIsStep(players, seat, p);
      assert forall q :: q in players <==> q == players[0] || q in players[1..];
    }
  }

  predicate IsWinner(hand: HandSnapshot, winnerSeat: int) {
    hand.winner || hand.seat == winnerSeat
  }

  function FindWinnerHand(hands: seq<HandSnapshot>, winnerSeat: int): Option<HandSnapshot> {
    if hands == [] then None
    else if IsWinner(hands[0], winnerSeat) then Some(hands[0])
    else FindWinnerHand(hands[1..], winnerSeat)
  }

  /** The hand is flagged as the winner's or in the winner's seat, and none listed earlier is. */
  ghost predicate WinnerIs(hands: seq<HandSnapshot>, winnerSeat: int, h: HandSnapshot) {
    exists i :: 0 <= i < |hands| && hands[i] == h && (h.winner || h.seat == winnerSeat)
                && forall j | 0 <= j < i :: !hands[j].winner && hands[j].seat != winnerSeat
  }

  lemma WinnerIsStep(hands: seq<HandSnapshot>, winnerSeat: int, h: HandSnapshot)
    requires hands != []
    ensures WinnerIs(hands, winnerSeat, h)
       <==> if hands[0].winner || hands[0].seat == winnerSeat then h == hands[0] else WinnerIs(hands[1..], winnerSeat, h)
  {
    if WinnerIs(hands, winnerSeat, h) {
      var i :| 0 <= i < |hands| && hands[i] == h && (h.winner || h.seat == winnerSeat)
               && forall j | 0 <= j < i :: !hands[j].winner && hands[j].seat != winnerSeat;
      if i > 0 {
        assert hands[1..][i - 1] == h;
        assert forall j | 0 <= j < i - 1 :: hands[1..][j] == hands[j + 1];
      }
    }
    var rest := hands[1..];
    if !hands[0].winner && hands[0].seat != winnerSeat && WinnerIs(rest, winnerSeat, h) {
      var i :| 0 <= i < |rest| && rest[i] == h && (h.winner || h.seat == winnerSeat)
               && forall j | 0 <= j < i :: !rest[j].winner && rest[j].seat != winnerSeat;
      assert hands[i + 1] == h;
      assert forall j | 0 < j < i + 1 :: hands[j] == rest[j - 1];
    }
  }

  /** The search finds the first such hand, and none if and only if there is none. */
  lemma {:induction false} FindWinnerIff(hands: seq<HandSnapshot>, winnerSeat: int, h: HandSnapshot)
    ensures FindWinnerHand(hands, winnerSeat) == Some(h) <==> WinnerIs(hands, winnerSeat, h)
    ensures FindWinnerHand(hands, winnerSeat).None? <==> forall g | g in hands :: !g.winner && g.seat != winnerSeat
  {
    if hands != [] {
      FindWinnerIff(hands[1..], winnerSeat, h);
      WinnerIsStep(hands, winnerSeat, h);
      assert forall g :: g in hands <==> g == hands[0] || g in hands[1..];
    }
  }

  predicate IsWinningClaimKind(kind: int) {
    kind == CLAIM_DISCARD_WIN || kind == CLAIM_ROB_KONG_WIN
  }

  predicate IsWinningAction(candidate: CandidateAction) {
    candidate.CandidateWin? || (candidate.CandidateClaim? && IsWinningClaimKind(candidate.claim.kind))
  }

  function ExtractWinType(candidate: CandidateAction): Result<int, Error> {
    if candidate.CandidateWin? then Ok(candidate.winType)
    else if candidate.CandidateClaim? && candidate.claim.kind == CLAIM_ROB_KONG_WIN then Ok(WIN_ROB_KONG)
    else if candidate.CandidateClaim? && candidate.claim.kind == CLAIM_DISCARD_WIN then Ok(WIN_DISCARD)
    else Err(NotWinning)
  }

  function ExtractWinningTile(candidate: CandidateAction): Result<int, Error> {
    if candidate.CandidateWin? then Ok(candidate.winningTile)
    else if candidate.CandidateClaim? then Ok(candidate.claim.target)
    else Err(NoWinningTile)
  }

  /** The wind tile of a seat. */
  function Wind(seat: int): Result<TileId, Error> {
    var index :- SeatIndex(seat);
    Ok(TILE_E + index)
  }

  predicate SelfDrawn(winType: int) {
    winType == WIN_SELF_DRAW || winType == WIN_KONG_DRAW
  }

  predicate KongWin(winType: int) {
    winType == WIN_ROB_KONG || winType == WIN_KONG_DRAW
  }

  function EncodeAll(melds: seq<Meld>, actor: int): Result<seq<Pack>, Error> {
    if melds == [] then Ok([])
    else
      var last := |melds| - 1;
      var front :- EncodeAll(melds[..last], actor);
      var pack :- Encode(melds[last], actor);
      Ok(front + [pack])
  }

  lemma {:induction false} EncodeAllSize(melds: seq<Meld>, actor: int)
    ensures EncodeAll(melds, actor).Ok? ==> |EncodeAll(melds, actor).value| == |melds|
  {
    if melds != [] {
      EncodeAllSize(melds[..|melds| - 1], actor);
    }
  }

  // ---------- the two hands ----------

  /** A hand with its round, its melds and its flowers, but no concealed tiles yet. */
  function Shell(prevailingWind: int, seat: int, winType: Result<int, Error>, lastTile: bool,
                 melds: seq<Meld>, flowers: seq<int>): Result<Hand, Error> {
    var prevailing :- Wind(prevailingWind);
    var own :- Wind(seat);
    var win :- winType;
    var fulu :- EncodeAll(melds, seat);
    var huapai :- ToTiles(flowers);
    Ok(Hand(prevailing, own, SelfDrawn(win), 0, lastTile, KongWin(win), fulu, [], Unmarked, huapai))
  }

  /** All but the last tile are sorted; the last one carries how the hand was won. */
  function Completed(shell: Hand, front: seq<TileId>, last: TileId): Hand {
    shell.(lipai := Sorted(front) + [last], lastMark := if shell.zimo then Zimo else Chonghu)
  }

  function LastTileNumber(selfDrawn: bool, candidate: CandidateAction, drawnTile: int): Result<int, Error> {
    if selfDrawn then Ok(drawnTile) else ExtractWinningTile(candidate)
  }

  /** The concealed tiles, and the tile that completes them. */
  function ValidationTiles(selfDrawn: bool, candidate: CandidateAction, held: PrivateHand): Result<(seq<TileId>, TileId), Error> {
    var front :- ToTiles(held.concealed);
    var number :- LastTileNumber(selfDrawn, candidate, held.drawnTile);
    var last :- ToTile(number);
    Ok((front, last))
  }

  function ValidationShell(request: ValidationRequest, actor: EnginePlayerState): Result<Hand, Error> {
    Shell(request.prevailingWind, request.actorSeat, ExtractWinType(request.candidate), request.isLastTile,
          actor.melds, actor.flowers)
  }

  function ActorHand(request: ValidationRequest, actor: EnginePlayerState, held: PrivateHand): Result<Hand, Error> {
    var shell :- ValidationShell(request, actor);
    var tiles :- ValidationTiles(shell.zimo, request.candidate, held);
    if 3 * |shell.fulu| + |tiles.0| + 1 != HAND_SIZE then Err(NotFourteen)
    else Ok(Completed(shell, tiles.0, tiles.1))
  }

  function ValidationHand(request: ValidationRequest): Result<Hand, Error> {
    var actor := FindActor(request.players, request.actorSeat);
    if actor.None? then Err(NoActor)
    else if request.privateHand.None? then Err(NoPrivateHand)
    else ActorHand(request, actor.value, request.privateHand.value)
  }

  predicate LastTileFlagged(request: ScoreRequest) {
    request.isLastTile || FLAG_LAST_TILE_DRAW in request.settlementFlags || FLAG_LAST_TILE_CLAIM in request.settlementFlags
  }

  /** The tiles without the first occurrence of one of them. */
  function WithoutFirst(tiles: seq<TileId>, tile: TileId): seq<TileId>
    requires tile in tiles
  {
    if tiles[0] == tile then tiles[1..] else [tiles[0]] + WithoutFirst(tiles[1..], tile)
  }

  lemma {:induction false} WithoutFirstRemoves(tiles: seq<TileId>, tile: TileId)
    requires tile in tiles
    ensures multiset(WithoutFirst(tiles, tile)) == multiset(tiles) - multiset{tile}
    ensures |WithoutFirst(tiles, tile)| == |tiles| - 1
  {
    assert tiles == [tiles[0]] + tiles[1..];
    if tiles[0] != tile {
      WithoutFirstRemoves(tiles[1..], tile);
    }
  }

  /** What stands before the winning tile: all thirteen, or fourteen without it. */
  function FrontTiles(visible: int, concealed: seq<TileId>, winning: TileId): Result<seq<TileId>, Error> {
    if visible == 13 then Ok(concealed)
    else if visible == HAND_SIZE then
      if winning in concealed then Ok(WithoutFirst(concealed, winning)) else Err(WinningTileMissing)
    else Err(BadHandSize)
  }

  /** The tiles before the winning one, and the winning one. */
  function ScoringTiles(request: ScoreRequest, hand: HandSnapshot): Result<(seq<TileId>, TileId), Error> {
    var concealed :- ToTiles(hand.concealed);
    var winning :- ToTile(request.winningTile);
    var front :- FrontTiles(3 * |hand.melds| + |hand.concealed|, concealed, winning);
    Ok((front, winning))
  }

  function ScoringShell(request: ScoreRequest, hand: HandSnapshot): Result<Hand, Error> {
    Shell(request.prevailingWind, hand.seat, Ok(request.winType), LastTileFlagged(request), hand.melds, hand.flowers)
  }

  function ScoringHand(request: ScoreRequest, hand: HandSnapshot): Result<Hand, Error> {
    var shell :- ScoringShell(request, hand);
    var tiles :- ScoringTiles(request, hand);
    Ok(Completed(shell, tiles.0, tiles.1))
  }

  // ---------- taking a built hand apart ----------

  lemma ValidationParts(v: ValidationRequest, actor: EnginePlayerState, built: Hand)
    returns (shell: Hand, front: seq<TileId>, last: TileId)
    requires FindActor(v.players, v.actorSeat) == Some(actor) && ValidationHand(v) == Ok(built)
    ensures v.privateHand.Some? && ValidationShell(v, actor) == Ok(shell)
    ensures ValidationTiles(shell.zimo, v.candidate, v.privateHand.value) == Ok((front, last))
    ensures EncodeAll(actor.melds, v.actorSeat) == Ok(shell.fulu) && 3 * |shell.fulu| + |front| + 1 == HAND_SIZE
    ensures built == Completed(shell, front, last)
  {
    shell := ValidationShell(v, actor).value;
    var tiles := ValidationTiles(shell.zimo, v.candidate, v.privateHand.value).value;
    front, last := tiles.0, tiles.1;
  }

  lemma ScoringParts(s: ScoreRequest, hand: HandSnapshot, built: Hand)
    returns (shell: Hand, front: seq<TileId>, last: TileId)
    requires ScoringHand(s, hand) == Ok(built)
    ensures ScoringShell(s, hand) == Ok(shell) && EncodeAll(hand.melds, hand.seat) == Ok(shell.fulu)
    ensures ScoringTiles(s, hand) == Ok((front, last)) && built == Completed(shell, front, last)
  {
    shell := ScoringShell(s, hand).value;
    var tiles := ScoringTiles(s, hand).value;
    front, last := tiles.0, tiles.1;
  }
}
