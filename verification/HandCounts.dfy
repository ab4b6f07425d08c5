// What the tables and lists of a built hand count
// (cpp_engine/src/gb_mahjong_adapter.cc:149-165, 233-245, 302-361, 387-448).
module HandCounts {
  import opened Wrappers
  import opened Tiles
  import opened EngineProtocol
  import opened Melds
  import opened HandSpec
  import opened HandBuilding
  import opened Agreement

  /**
   * Each table of an indexed hand has a cell for every tile of its range, and
   * every cell, present or not, reads as the number of times the tile is listed.
   */
  lemma TablesCount(h: Handtiles)
    requires h.Indexed()
    ensures forall id | 1 <= id <= 42 :: id in h.lipaiTable && id in h.fuluTable
    ensures forall id | 35 <= id <= 42 :: id in h.huapaiTable
    ensures forall id :: At(h.lipaiTable, id) == multiset(h.lipai)[id]
    ensures forall id :: At(h.fuluTable, id) == multiset(Expanded(h.fulu))[id]
    ensures forall id :: At(h.huapaiTable, id) == multiset(h.huapai)[id]
  {
    TableIs(TILE_1M, TILE_SIZE, h.lipai);
    TableIs(TILE_1M, TILE_SIZE, Expanded(h.fulu));
    TableIs(TILE_MEI, TILE_DONG + 1, h.huapai);
  }

  // ---------- how many tiles ----------

  predicate IsKong(meld: Meld) {
    meld.kind != MELD_CHI && meld.kind != MELD_PENG
  }

  function Kongs(melds: seq<Meld>): nat {
    if melds == [] then 0
    else Kongs(melds[..|melds| - 1]) + if IsKong(melds[|melds| - 1]) then 1 else 0
  }

  /** The tile numbers of some melds, as the request lists them. */
  function MeldTiles(melds: seq<Meld>): seq<int> {
    if melds == [] then [] else MeldTiles(melds[..|melds| - 1]) + melds[|melds| - 1].tiles
  }

  /** The ids that one encoded meld expands to are those of its own tiles. */
  lemma PackCounts(meld: Meld, actor: int, id: TileId)
    requires WellFormed(meld, actor)
    ensures Encode(meld, actor).Ok?
    ensures multiset(GetAllTile(Encode(meld, actor).value))[id] == multiset(meld.tiles)[id + 1]
  {
    PackTiles(meld, actor);
    ShiftedCount(Sorted(meld.tiles), GetAllTile(Encode(meld, actor).value), id);
  }

  lemma EncodeAllOf(melds: seq<Meld>, actor: int)
    requires melds != [] && EncodeAll(melds[..|melds| - 1], actor).Ok? && Encode(melds[|melds| - 1], actor).Ok?
    ensures EncodeAll(melds, actor).Ok?
    ensures Expanded(EncodeAll(melds, actor).value)
         == Expanded(EncodeAll(melds[..|melds| - 1], actor).value) + GetAllTile(Encode(melds[|melds| - 1], actor).value)
  {
    ExpandedMore(EncodeAll(melds[..|melds| - 1], actor).value, Encode(melds[|melds| - 1], actor).value);
  }

  /** Well-formed melds are all encodable and expand to three tiles each, and one more for each kong. */
  lemma {:induction false} ExpandedSize(melds: seq<Meld>, actor: int)
    requires forall m | m in melds :: WellFormed(m, actor)
    ensures EncodeAll(melds, actor).Ok?
    ensures |Expanded(EncodeAll(melds, actor).value)| == 3 * |melds| + Kongs(melds)
  {
    if melds != [] {
      var front, last := melds[..|melds| - 1], melds[|melds| - 1];
      ExpandedSize(front, actor);
      PackTiles(last, actor);
      EncodeAllOf(melds, actor);
    }
  }

  /** No tile is lost, added or changed on the way into the packs. */
  lemma {:induction false} ExpandedCounts(melds: seq<Meld>, actor: int, id: TileId)
    requires forall m | m in melds :: WellFormed(m, actor)
    ensures EncodeAll(melds, actor).Ok?
    ensures multiset(Expanded(EncodeAll(melds, actor).value))[id] == multiset(MeldTiles(melds))[id + 1]
  {
    if melds != [] {
      var front, last := melds[..|melds| - 1], melds[|melds| - 1];
      ExpandedCounts(front, actor, id);
      PackCounts(last, actor, id);
      EncodeAllOf(melds, actor);
    }
  }

  lemma CompletedTotal(melds: seq<Meld>, actor: int, shell: Hand, front: seq<TileId>, last: TileId)
    requires EncodeAll(melds, actor) == Ok(shell.fulu) && 3 * |shell.fulu| + |front| + 1 == HAND_SIZE
    ensures 3 * |Completed(shell, front, last).fulu| + |Completed(shell, front, last).lipai| == HAND_SIZE
    ensures (forall m | m in melds :: WellFormed(m, actor)) ==>
              |Completed(shell, front, last).lipai| + |Expanded(Completed(shell, front, last).fulu)|
              == HAND_SIZE + Kongs(melds)
  {
    EncodeAllSize(melds, actor);
    if forall m | m in melds :: WellFormed(m, actor) {
      ExpandedSize(melds, actor);
    }
  }

  /**
   * In a hand built for validation, the concealed tiles and the tiles of the
   * packs make fourteen, and one more for each kong.
   */
  lemma ValidationTotal(v: ValidationRequest, actor: EnginePlayerState, built: Hand)
    requires ActorIs(v.players, v.actorSeat, actor) && ValidationHand(v) == Ok(built)
    ensures 3 * |built.fulu| + |built.lipai| == HAND_SIZE
    ensures (forall m | m in actor.melds :: WellFormed(m, v.actorSeat)) ==>
              |built.lipai| + |Expanded(built.fulu)| == HAND_SIZE + Kongs(actor.melds)
  {
    FindActorIff(v.players, v.actorSeat, actor);
    var shell, front, last := ValidationParts(v, actor, built);
    CompletedTotal(actor.melds, v.actorSeat, shell, front, last);
  }

  /** So it is in a hand built for scoring; its last size check cannot fail. */
  lemma ScoringTotal(s: ScoreRequest, hand: HandSnapshot, built: Hand)
    requires ScoringHand(s, hand) == Ok(built)
    ensures 3 * |built.fulu| + |built.lipai| == HAND_SIZE
    ensures (forall m | m in hand.melds :: WellFormed(m, hand.seat)) ==>
              |built.lipai| + |Expanded(built.fulu)| == HAND_SIZE + Kongs(hand.melds)
  {
    var shell, front, last := ScoringParts(s, hand, built);
    ScoringSize(s, hand, shell);
    CompletedTotal(hand.melds, hand.seat, shell, front, last);
  }

  lemma FrontCounts(visible: int, numbers: seq<int>, concealed: seq<TileId>, winning: TileId, id: TileId)
    requires ToTiles(numbers) == Ok(concealed) && FrontTiles(visible, concealed, winning).Ok?
    ensures multiset(FrontTiles(visible, concealed, winning).value)[id] + (if id == winning then 1 else 0)
         == multiset(numbers)[id + 1] + if visible == 13 && id == winning then 1 else 0
  {
    ShiftedCount(numbers, concealed, id);
    if winning in concealed {
      WithoutFirstRemoves(concealed, winning);
    }
  }

  lemma ScoredTiles(s: ScoreRequest, hand: HandSnapshot, front: seq<TileId>, last: TileId, id: TileId)
    requires ScoringTiles(s, hand) == Ok((front, last))
    ensures last == s.winningTile - 1
    ensures multiset(front)[id] + (if id == last then 1 else 0)
         == multiset(hand.concealed)[id + 1]
            + if 3 * |hand.melds| + |hand.concealed| == 13 && id == last then 1 else 0
  {
    FrontCounts(3 * |hand.melds| + |hand.concealed|, hand.concealed, ToTiles(hand.concealed).value, last, id);
  }

  lemma LastOfAssembled(lipai: seq<TileId>, front: seq<TileId>, last: TileId, id: TileId)
    requires lipai == Sorted(front) + [last]
    ensures lipai != [] && lipai[|lipai| - 1] == last && Ordered(lipai[..|lipai| - 1])
    ensures multiset(lipai)[id] == multiset(front)[id] + if id == last then 1 else 0
  {
    SortedOrdered(front);
    assert lipai[..|lipai| - 1] == Sorted(front);
  }

  /**
   * The concealed part of a scored hand is the snapshot's tiles, with the winning
   * tile added if they were thirteen; the others stand in ascending order before
   * it, and it is last.
   */
  lemma ScoringConcealed(s: ScoreRequest, hand: HandSnapshot, built: Hand, id: TileId)
    requires ScoringHand(s, hand) == Ok(built)
    ensures built.lipai != [] && built.lipai[|built.lipai| - 1] == s.winningTile - 1
    ensures Ordered(built.lipai[..|built.lipai| - 1])
    ensures multiset(built.lipai)[id] == multiset(hand.concealed)[id + 1]
            + if 3 * |hand.melds| + |hand.concealed| == 13 && id + 1 == s.winningTile then 1 else 0
  {
    var shell, front, last := ScoringParts(s, hand, built);
    LastOfAssembled(built.lipai, front, last, id);
    ScoredTiles(s, hand, front, last, id);
  }
}
