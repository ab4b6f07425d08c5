// Which requests a hand is built from, and what is in it
// (cpp_engine/src/gb_mahjong_adapter.cc:26-147, 302-448).
module BuiltHands {
  import opened Wrappers
  import opened Tiles
  import opened EngineProtocol
  import opened Melds
  import opened HandSpec
  import opened Agreement
  import opened HandCounts

  // ---------- what was shown ----------

  ghost predicate AllKnown(numbers: seq<int>) {
    forall t | t in numbers :: Known(t)
  }

  ghost predicate AllEncodable(melds: seq<Meld>, seat: int) {
    forall m | m in melds :: Encodable(m, seat)
  }

  /** The seat and the prevailing wind are real, and all melds and flowers can be read. */
  ghost predicate Readable(prevailing: int, seat: int, melds: seq<Meld>, flowers: seq<int>) {
    1 <= prevailing <= 4 && 1 <= seat <= 4 && AllEncodable(melds, seat) && AllKnown(flowers)
  }

  /** Tile ids are one below the numbers of the request. */
  ghost predicate Ids(numbers: seq<int>, ids: seq<TileId>) {
    |ids| == |numbers| && forall i | 0 <= i < |ids| :: ids[i] + 1 == numbers[i]
  }

  ghost predicate Packs(melds: seq<Meld>, seat: int, packs: seq<Pack>) {
    |packs| == |melds| && forall i | 0 <= i < |packs| :: Encode(melds[i], seat) == Ok(packs[i])
  }

  /**
   * The hand has the winds and flags of its win, where east is tile 28: kinds 1
   * and 4 are drawn by the winner, 3 and 4 come with a kong; the packs of the
   * melds, and the flowers, each in order.
   */
  ghost predicate Shown(built: Hand, prevailing: int, seat: int, winType: int, lastTile: bool,
                        melds: seq<Meld>, flowers: seq<int>) {
    && built.quanfeng == 27 + prevailing && built.menfeng == 27 + seat
    && (built.zimo <==> winType == 1 || winType == 4) && (built.gang <==> winType == 3 || winType == 4)
    && (built.haidi <==> lastTile) && built.juezhang == 0
    && Packs(melds, seat, built.fulu) && Ids(flowers, built.huapai)
  }

  /** A tile is as often among the ids as among the numbers, the completing one once more. */
  ghost predicate Counts(ids: seq<TileId>, numbers: multiset<int>, completing: int, id: TileId) {
    multiset(ids)[id] == numbers[id + 1] + if id + 1 == completing then 1 else 0
  }

  /**
   * The concealed part: the given tiles, counted at any one of them, and the
   * completing one, which stands last and says how it came in; the others stand
   * before it in ascending order.
   */
  ghost predicate Concealed(built: Hand, winType: int, numbers: multiset<int>, completing: int, id: TileId) {
    && built.lipai != [] && built.lipai[|built.lipai| - 1] == completing - 1
    && Ordered(built.lipai[..|built.lipai| - 1])
    && Counts(built.lipai, numbers, completing, id)
    && built.lastMark == if winType == 1 || winType == 4 then Zimo else Chonghu
  }

  lemma {:induction false} EncodeAllIff(melds: seq<Meld>, seat: int)
    ensures EncodeAll(melds, seat).Ok? <==> AllEncodable(melds, seat)
  {
    if melds != [] {
      var front, last := melds[..|melds| - 1], melds[|melds| - 1];
      EncodeAllIff(front, seat);
      EncodesIff(last, seat);
      assert forall m :: m in melds <==> m in front || m == last;
    }
  }

  lemma {:induction false} EncodeAllAt(melds: seq<Meld>, seat: int, i: nat)
    requires i < |melds| && EncodeAll(melds, seat).Ok?
    ensures i < |EncodeAll(melds, seat).value| && Encode(melds[i], seat) == Ok(EncodeAll(melds, seat).value[i])
  {
    EncodeAllSize(melds, seat);
    var front := melds[..|melds| - 1];
    EncodeAllSize(front, seat);
    if i < |front| {
      EncodeAllAt(front, seat, i);
    }
  }

  lemma EncodeAllPacks(melds: seq<Meld>, seat: int, packs: seq<Pack>)
    requires EncodeAll(melds, seat) == Ok(packs)
    ensures Packs(melds, seat, packs)
  {
    EncodeAllSize(melds, seat);
    forall i | 0 <= i < |packs|
      ensures Encode(melds[i], seat) == Ok(packs[i])
    {
      EncodeAllAt(melds, seat, i);
    }
  }

  lemma ShellIff(prevailing: int, seat: int, winType: int, lastTile: bool, melds: seq<Meld>, flowers: seq<int>)
    ensures Shell(prevailing, seat, Ok(winType), lastTile, melds, flowers).Ok? <==> Readable(prevailing, seat, melds, flowers)
    ensures Shell(prevailing, seat, Ok(winType), lastTile, melds, flowers).Ok? ==>
              var shell := Shell(prevailing, seat, Ok(winType), lastTile, melds, flowers).value;
              Shown(shell, prevailing, seat, winType, lastTile, melds, flowers) && |shell.fulu| == |melds|
  {
    EncodeAllIff(melds, seat);
    KnownIff(flowers);
    if EncodeAll(melds, seat).Ok? {
      EncodeAllPacks(melds, seat, EncodeAll(melds, seat).value);
    }
  }

  /** Completing the shell with tiles that count so. */
  lemma CompletedShows(shell: Hand, winType: int, front: seq<TileId>, last: TileId, numbers: multiset<int>, id: TileId)
    requires shell.zimo <==> winType == 1 || winType == 4
    requires multiset(front)[id] == numbers[id + 1]
    ensures Concealed(Completed(shell, front, last), winType, numbers, last + 1, id)
  {
    LastOfAssembled(Completed(shell, front, last).lipai, front, last, id);
  }

  // ---------- validation ----------

  /** What validation needs of the player in the actor's seat and of the private hand, the win being named. */
  ghost predicate Buildable(v: ValidationRequest, actor: EnginePlayerState, winType: int, completing: int) {
    && ActorIs(v.players, v.actorSeat, actor)
    && v.privateHand.Some? && Wins(v.candidate, v.privateHand.value.drawnTile, winType, completing)
    && Readable(v.prevailingWind, v.actorSeat, actor.melds, actor.flowers)
    && AllKnown(v.privateHand.value.concealed) && Known(completing)
    && 3 * |actor.melds| + |v.privateHand.value.concealed| == 13
  }

  lemma ActorHandIff(v: ValidationRequest, actor: EnginePlayerState, winType: int, completing: int)
    requires FindActor(v.players, v.actorSeat) == Some(actor) && v.privateHand.Some?
    requires Wins(v.candidate, v.privateHand.value.drawnTile, winType, completing)
    ensures ValidationHand(v).Ok? <==> Buildable(v, actor, winType, completing)
  {
    FindActorIff(v.players, v.actorSeat, actor);
    WinsIff(v.candidate, v.privateHand.value.drawnTile, winType, completing);
    ShellIff(v.prevailingWind, v.actorSeat, winType, v.isLastTile, actor.melds, actor.flowers);
    KnownIff(v.privateHand.value.concealed);
    EncodeAllSize(actor.melds, v.actorSeat);
  }

  lemma ActorHandShows(v: ValidationRequest, actor: EnginePlayerState, winType: int, completing: int, built: Hand,
                       id: TileId)
    requires FindActor(v.players, v.actorSeat) == Some(actor) && v.privateHand.Some? && ValidationHand(v) == Ok(built)
    requires Wins(v.candidate, v.privateHand.value.drawnTile, winType, completing)
    ensures Shown(built, v.prevailingWind, v.actorSeat, winType, v.isLastTile, actor.melds, actor.flowers)
    ensures Concealed(built, winType, multiset(v.privateHand.value.concealed), completing, id)
  {
    var held := v.privateHand.value;
    WinsIff(v.candidate, held.drawnTile, winType, completing);
    var shell, front, last := ValidationParts(v, actor, built);
    ShellIff(v.prevailingWind, v.actorSeat, winType, v.isLastTile, actor.melds, actor.flowers);
    ShiftedCount(held.concealed, front, id);
    CompletedShows(shell, winType, front, last, multiset(held.concealed), id);
  }

  /**
   * Validation builds a hand if and only if the first player in the actor's seat
   * is there with readable melds and flowers, thirteen readable concealed tiles,
   * counting a meld as three, and a readable completing one; and then the hand
   * has that player's winds, melds, flowers and tiles, the completing one last.
   */
  lemma ValidationBuilds(v: ValidationRequest, winType: int, completing: int, id: TileId)
    requires v.privateHand.Some? ==> Wins(v.candidate, v.privateHand.value.drawnTile, winType, completing)
    ensures ValidationHand(v).Ok? <==> exists actor :: Buildable(v, actor, winType, completing)
    ensures ValidationHand(v).Ok? ==>
              exists actor ::
                && Buildable(v, actor, winType, completing)
                && Shown(ValidationHand(v).value, v.prevailingWind, v.actorSeat, winType, v.isLastTile, actor.melds, actor.flowers)
                && Concealed(ValidationHand(v).value, winType, multiset(v.privateHand.value.concealed), completing, id)
  {
    forall actor | Buildable(v, actor, winType, completing)
      ensures FindActor(v.players, v.actorSeat) == Some(actor)
    {
      FindActorIff(v.players, v.actorSeat, actor);
    }
    if FindActor(v.players, v.actorSeat).Some? && v.privateHand.Some? {
      var actor := FindActor(v.players, v.actorSeat).value;
      ActorHandIff(v, actor, winType, completing);
      if ValidationHand(v).Ok? {
        ActorHandShows(v, actor, winType, completing, ValidationHand(v).value, id);
      }
    }
  }

  // ---------- scoring ----------

  /** What scoring needs of the snapshot: thirteen tiles, or fourteen with the winning one among them. */
  ghost predicate Scorable(s: ScoreRequest, hand: HandSnapshot) {
    && Readable(s.prevailingWind, hand.seat, hand.melds, hand.flowers)
    && AllKnown(hand.concealed) && Known(s.winningTile)
    && (|| 3 * |hand.melds| + |hand.concealed| == 13
        || (3 * |hand.melds| + |hand.concealed| == 14 && s.winningTile in hand.concealed))
  }

  lemma ScoringTilesIff(s: ScoreRequest, hand: HandSnapshot)
    ensures ScoringTiles(s, hand).Ok?
       <==> && AllKnown(hand.concealed) && Known(s.winningTile)
            && (|| 3 * |hand.melds| + |hand.concealed| == 13
                || (3 * |hand.melds| + |hand.concealed| == 14 && s.winningTile in hand.concealed))
  {
    KnownIff(hand.concealed);
    if ToTiles(hand.concealed).Ok? {
      ShiftedMember(hand.concealed, ToTiles(hand.concealed).value, s.winningTile);
    }
  }

  /** The snapshot's tiles without the winning one, if they are fourteen. */
  function Thirteen(s: ScoreRequest, hand: HandSnapshot): multiset<int> {
    if 3 * |hand.melds| + |hand.concealed| == 13 then multiset(hand.concealed)
    else multiset(hand.concealed) - multiset{s.winningTile}
  }

  lemma ScoringHandIff(s: ScoreRequest, hand: HandSnapshot)
    ensures ScoringHand(s, hand).Ok? <==> Scorable(s, hand)
  {
    ShellIff(s.prevailingWind, hand.seat, s.winType, LastTileFlagged(s), hand.melds, hand.flowers);
    ScoringTilesIff(s, hand);
  }

  lemma ScoringHandShows(s: ScoreRequest, hand: HandSnapshot, built: Hand)
    requires ScoringHand(s, hand) == Ok(built)
    ensures Shown(built, s.prevailingWind, hand.seat, s.winType, OnLastTile(s), hand.melds, hand.flowers)
    ensures built.lastMark == if s.winType == 1 || s.winType == 4 then Zimo else Chonghu
  {
    var shell, front, last := ScoringParts(s, hand, built);
    ShellIff(s.prevailingWind, hand.seat, s.winType, LastTileFlagged(s), hand.melds, hand.flowers);
  }

  lemma ScoringHandConceals(s: ScoreRequest, hand: HandSnapshot, built: Hand, id: TileId)
    requires ScoringHand(s, hand) == Ok(built)
    requires 3 * |hand.melds| + |hand.concealed| == 13 || s.winningTile in hand.concealed
    requires built.lastMark == if s.winType == 1 || s.winType == 4 then Zimo else Chonghu
    ensures Concealed(built, s.winType, Thirteen(s, hand), s.winningTile, id)
  {
    ScoringConcealed(s, hand, built, id);
  }

  /**
   * Scoring builds a hand if and only if the snapshot can be read and has
   * thirteen tiles, or fourteen with the winning one among them; and then the
   * hand has the snapshot's winds, melds, flowers and tiles, the winning one
   * last.
   */
  lemma ScoringBuilds(s: ScoreRequest, hand: HandSnapshot, id: TileId)
    ensures ScoringHand(s, hand).Ok? <==> Scorable(s, hand)
    ensures ScoringHand(s, hand).Ok? ==>
              && Shown(ScoringHand(s, hand).value, s.prevailingWind, hand.seat, s.winType, OnLastTile(s),
                       hand.melds, hand.flowers)
              && Concealed(ScoringHand(s, hand).value, s.winType, Thirteen(s, hand), s.winningTile, id)
  {
    ScoringHandIff(s, hand);
    if ScoringHand(s, hand).Ok? {
      ScoringHandShows(s, hand, ScoringHand(s, hand).value);
      ScoringHandConceals(s, hand, ScoringHand(s, hand).value, id);
    }
  }
}
