// Both builders make the same hand (cpp_engine/src/gb_mahjong_adapter.cc:302-448).
module Agreement {
  import opened Wrappers
  import opened Tiles
  import opened EngineProtocol
  import opened Melds
  import opened HandSpec

  /** Two lists of tile numbers translate to lists of ids with the same tiles, or neither translates. */
  lemma SameNumbers(a: seq<int>, b: seq<int>)
    requires multiset(a) == multiset(b)
    ensures ToTiles(a).Ok? <==> ToTiles(b).Ok?
    ensures ToTiles(a).Ok? ==> multiset(ToTiles(a).value) == multiset(ToTiles(b).value)
  {
    KnownIff(a);
    KnownIff(b);
    assert forall t :: t in a <==> t in multiset(a);
    assert forall t :: t in b <==> t in multiset(b);
    if ToTiles(a).Ok? {
      var s, t := ToTiles(a).value, ToTiles(b).value;
      forall id
        ensures multiset(s)[id] == multiset(t)[id]
      {
        ShiftedCount(a, s, id);
        ShiftedCount(b, t, id);
      }
      assert multiset(s) == multiset(t);
    }
  }

  /** A tile's id occurs as often as its number. */
  lemma {:induction false} ShiftedCount(numbers: seq<int>, ids: seq<TileId>, id: TileId)
    requires |ids| == |numbers| && forall i | 0 <= i < |ids| :: ids[i] == numbers[i] - 1
    ensures multiset(ids)[id] == multiset(numbers)[id + 1]
  {
    if numbers != [] {
      var last := |numbers| - 1;
      ShiftedCount(numbers[..last], ids[..last], id);
      assert numbers == numbers[..last] + [numbers[last]];
      assert ids == ids[..last] + [ids[last]];
    }
  }

  // ---------- canonical form ----------

  /** Taking the winning tile out of the full hand leaves the thirteen tiles it was added to. */
  lemma WithoutWinningTile(thirteen: seq<TileId>, full: seq<TileId>, winning: TileId)
    requires multiset(full) == multiset(thirteen) + multiset{winning}
    ensures winning in full && |full| == |thirteen| + 1
    ensures multiset(WithoutFirst(full, winning)) == multiset(thirteen)
  {
    assert winning in multiset(full);
    assert |multiset(full)| == |multiset(thirteen)| + 1;
    WithoutFirstRemoves(full, winning);
  }

  /** The tiles before the winning one, whether the snapshot shows thirteen or all fourteen. */
  lemma SameFront(melds: nat, thirteen: seq<TileId>, full: seq<TileId>, winning: TileId)
    requires 3 * melds + |thirteen| == 13 && multiset(full) == multiset(thirteen) + multiset{winning}
    ensures FrontTiles(3 * melds + |thirteen|, thirteen, winning).Ok?
    ensures FrontTiles(3 * melds + |full|, full, winning).Ok?
    ensures multiset(FrontTiles(3 * melds + |thirteen|, thirteen, winning).value)
         == multiset(FrontTiles(3 * melds + |full|, full, winning).value)
  {
    WithoutWinningTile(thirteen, full, winning);
  }

  /** The snapshot shows the same hand with the winning tile already in it, in any order. */
  ghost predicate ShowsWinningTile(request: ScoreRequest, thirteen: HandSnapshot, full: HandSnapshot) {
    && full == thirteen.(concealed := full.concealed)
    && multiset(full.concealed) == multiset(thirteen.concealed) + multiset{request.winningTile}
  }

  lemma FullNumbers(thirteen: seq<int>, full: seq<int>, winning: int)
    requires multiset(full) == multiset(thirteen) + multiset{winning}
    ensures |full| == |thirteen| + 1
    ensures ToTiles(full).Ok? <==> ToTiles(thirteen).Ok? && ToTile(winning).Ok?
    ensures ToTiles(full).Ok? ==>
              multiset(ToTiles(full).value) == multiset(ToTiles(thirteen).value) + multiset{ToTile(winning).value}
  {
    var shown := thirteen + [winning];
    assert |multiset(full)| == |multiset(thirteen)| + 1;
    SameNumbers(shown, full);
    assert shown[..|thirteen|] == thirteen;
  }

  lemma CanonicalTiles(request: ScoreRequest, thirteen: HandSnapshot, full: HandSnapshot)
    requires ShowsWinningTile(request, thirteen, full)
    requires 3 * |thirteen.melds| + |thirteen.concealed| == 13
    ensures ScoringTiles(request, thirteen).Ok? <==> ScoringTiles(request, full).Ok?
    ensures ScoringTiles(request, thirteen).Ok? ==>
              && multiset(ScoringTiles(request, thirteen).value.0) == multiset(ScoringTiles(request, full).value.0)
              && ScoringTiles(request, thirteen).value.1 == ScoringTiles(request, full).value.1
  {
    FullNumbers(thirteen.concealed, full.concealed, request.winningTile);
    if ToTiles(full.concealed).Ok? {
      SameFront(|thirteen.melds|, ToTiles(thirteen.concealed).value, ToTiles(full.concealed).value,
                ToTile(request.winningTile).value);
    }
  }

  lemma CompletedSame(shell: Hand, a: seq<TileId>, b: seq<TileId>, last: TileId)
    requires multiset(a) == multiset(b)
    ensures Completed(shell, a, last) == Completed(shell, b, last)
  {
    SortedUnique(a, b);
  }

  /** Two snapshots that differ in their concealed tiles only make the same hand of the same front. */
  lemma SameScoringHand(request: ScoreRequest, one: HandSnapshot, other: HandSnapshot)
    requires other == one.(concealed := other.concealed)
    requires ScoringTiles(request, one).Ok? && ScoringTiles(request, other).Ok?
    requires multiset(ScoringTiles(request, one).value.0) == multiset(ScoringTiles(request, other).value.0)
    requires ScoringTiles(request, one).value.1 == ScoringTiles(request, other).value.1
    ensures ScoringHand(request, one) == ScoringHand(request, other)
  {
    if ScoringShell(request, one).Ok? {
      CompletedSame(ScoringShell(request, one).value, ScoringTiles(request, one).value.0,
                    ScoringTiles(request, other).value.0, ScoringTiles(request, one).value.1);
    }
  }

  /**
   * Canonical hand: a thirteen-tile snapshot and any arrangement of it with the
   * winning tile included build the same hand, or both fail.
   */
  lemma CanonicalHand(request: ScoreRequest, thirteen: HandSnapshot, full: HandSnapshot)
    requires ShowsWinningTile(request, thirteen, full)
    requires 3 * |thirteen.melds| + |thirteen.concealed| == 13
    ensures ScoringHand(request, thirteen).Ok? <==> ScoringHand(request, full).Ok?
    ensures ScoringHand(request, thirteen).Ok? ==> ScoringHand(request, thirteen) == ScoringHand(request, full)
  {
    CanonicalTiles(request, thirteen, full);
    if ScoringTiles(request, full).Ok? {
      SameScoringHand(request, thirteen, full);
    }
  }

  // ---------- validation and scoring ----------

  /**
   * The action claims this kind of win, completed by this tile: 1 and 4 are won
   * by the drawn tile, 2 and 3 by the named one, and a claim of kind 4 or 5 is a
   * win of kind 2 or 3 by its target.
   */
  predicate Wins(candidate: CandidateAction, drawnTile: int, winType: int, tile: int) {
    || (candidate.CandidateWin? && winType == candidate.winType
        && tile == if winType == 1 || winType == 4 then drawnTile else candidate.winningTile)
    || (candidate.CandidateClaim? && tile == candidate.claim.target
        && ((candidate.claim.kind == 4 && winType == 2) || (candidate.claim.kind == 5 && winType == 3)))
  }

  /** The round is on its last tile, or a flag of the settlement says so. */
  predicate OnLastTile(s: ScoreRequest) {
    s.isLastTile || 5 in s.settlementFlags || 6 in s.settlementFlags
  }

  /**
   * A validation request and a score request about the same win: the snapshot
   * has the seat, melds and flowers of the player in the actor's seat, and the
   * wind, the kind of win, the completing tile and the last-tile status are the
   * same.
   */
  ghost predicate Matching(v: ValidationRequest, s: ScoreRequest, hand: HandSnapshot) {
    && (exists actor :: ActorIs(v.players, v.actorSeat, actor) && hand.melds == actor.melds && hand.flowers == actor.flowers)
    && hand.seat == v.actorSeat && s.prevailingWind == v.prevailingWind
    && v.privateHand.Some? && Wins(v.candidate, v.privateHand.value.drawnTile, s.winType, s.winningTile)
    && (v.isLastTile <==> OnLastTile(s))
  }

  lemma WinsIff(candidate: CandidateAction, drawnTile: int, winType: int, tile: int)
    ensures Wins(candidate, drawnTile, winType, tile)
       <==> ExtractWinType(candidate) == Ok(winType) && LastTileNumber(SelfDrawn(winType), candidate, drawnTile) == Ok(tile)
  {
  }

  /** What the builders read off requests about the same win. */
  lemma MatchingMeans(v: ValidationRequest, s: ScoreRequest, hand: HandSnapshot) returns (actor: EnginePlayerState)
    requires Matching(v, s, hand)
    ensures FindActor(v.players, v.actorSeat) == Some(actor) && hand.melds == actor.melds && hand.flowers == actor.flowers
    ensures ExtractWinType(v.candidate) == Ok(s.winType) && LastTileFlagged(s) == v.isLastTile
    ensures LastTileNumber(SelfDrawn(s.winType), v.candidate, v.privateHand.value.drawnTile) == Ok(s.winningTile)
  {
    actor :| ActorIs(v.players, v.actorSeat, actor) && hand.melds == actor.melds && hand.flowers == actor.flowers;
    FindActorIff(v.players, v.actorSeat, actor);
    WinsIff(v.candidate, v.privateHand.value.drawnTile, s.winType, s.winningTile);
  }

  /** The snapshot shows the concealed tiles in some order, without the winning tile or with it. */
  ghost predicate SameConcealed(v: ValidationRequest, s: ScoreRequest, hand: HandSnapshot)
    requires v.privateHand.Some?
  {
    || multiset(hand.concealed) == multiset(v.privateHand.value.concealed)
    || multiset(hand.concealed) == multiset(v.privateHand.value.concealed) + multiset{s.winningTile}
  }

  /** The snapshot as it looks before the winning tile is added, in the order validation lists it. */
  function Before(v: ValidationRequest, hand: HandSnapshot): HandSnapshot
    requires v.privateHand.Some?
  {
    hand.(concealed := v.privateHand.value.concealed)
  }

  lemma ReorderedTiles(s: ScoreRequest, one: HandSnapshot, other: HandSnapshot)
    requires other == one.(concealed := other.concealed) && multiset(one.concealed) == multiset(other.concealed)
    requires 3 * |one.melds| + |one.concealed| == 13
    ensures ScoringTiles(s, one).Ok? <==> ScoringTiles(s, other).Ok?
    ensures ScoringTiles(s, one).Ok? ==>
              && multiset(ScoringTiles(s, one).value.0) == multiset(ScoringTiles(s, other).value.0)
              && ScoringTiles(s, one).value.1 == ScoringTiles(s, other).value.1
  {
    SameNumbers(one.concealed, other.concealed);
    assert |multiset(one.concealed)| == |multiset(other.concealed)|;
  }

  /** The order of a thirteen-tile snapshot does not matter. */
  lemma ReorderedHand(s: ScoreRequest, one: HandSnapshot, other: HandSnapshot)
    requires other == one.(concealed := other.concealed) && multiset(one.concealed) == multiset(other.concealed)
    requires 3 * |one.melds| + |one.concealed| == 13
    ensures ScoringHand(s, one).Ok? <==> ScoringHand(s, other).Ok?
    ensures ScoringHand(s, one).Ok? ==> ScoringHand(s, one) == ScoringHand(s, other)
  {
    ReorderedTiles(s, one, other);
    if ScoringTiles(s, one).Ok? {
      SameScoringHand(s, one, other);
    }
  }

  /** Requests about the same win start from the same hand. */
  lemma SameShell(v: ValidationRequest, s: ScoreRequest, hand: HandSnapshot) returns (actor: EnginePlayerState)
    requires Matching(v, s, hand)
    ensures FindActor(v.players, v.actorSeat) == Some(actor) && ValidationShell(v, actor) == ScoringShell(s, hand)
    ensures ScoringShell(s, hand).Ok? ==>
              ScoringShell(s, hand).value.zimo == SelfDrawn(s.winType)
              && |ScoringShell(s, hand).value.fulu| == |hand.melds|
  {
    actor := MatchingMeans(v, s, hand);
    EncodeAllSize(hand.melds, hand.seat);
  }

  /** On a snapshot of the very tiles that validation lists, thirteen with melds, so do the tiles. */
  lemma SameTiles(v: ValidationRequest, s: ScoreRequest, hand: HandSnapshot)
    requires Matching(v, s, hand) && hand.concealed == v.privateHand.value.concealed
    requires 3 * |hand.melds| + |hand.concealed| == 13
    ensures ValidationTiles(SelfDrawn(s.winType), v.candidate, v.privateHand.value) == ScoringTiles(s, hand)
    ensures ScoringTiles(s, hand).Ok? ==> |ScoringTiles(s, hand).value.0| == |hand.concealed|
  {
    var actor := MatchingMeans(v, s, hand);
  }

  /** On such a snapshot the builders agree. */
  lemma DirectAgreement(v: ValidationRequest, s: ScoreRequest, hand: HandSnapshot)
    requires Matching(v, s, hand) && hand.concealed == v.privateHand.value.concealed
    requires 3 * |hand.melds| + |hand.concealed| == 13
    ensures ValidationHand(v).Ok? <==> ScoringHand(s, hand).Ok?
    ensures ValidationHand(v).Ok? ==> ValidationHand(v) == ScoringHand(s, hand)
  {
    var actor := SameShell(v, s, hand);
    SameTiles(v, s, hand);
  }

  /** Validation accepts a hand of thirteen tiles and a completing one, counting a meld as three. */
  lemma ValidationNeedsThirteen(v: ValidationRequest)
    requires ValidationHand(v).Ok?
    ensures v.privateHand.Some?
    ensures exists actor :: ActorIs(v.players, v.actorSeat, actor)
                            && 3 * |actor.melds| + |v.privateHand.value.concealed| == 13
  {
    var actor := FindActor(v.players, v.actorSeat).value;
    FindActorIff(v.players, v.actorSeat, actor);
    EncodeAllSize(actor.melds, v.actorSeat);
  }

  lemma NotThirteenRefused(v: ValidationRequest, s: ScoreRequest, hand: HandSnapshot)
    requires Matching(v, s, hand) && 3 * |hand.melds| + |v.privateHand.value.concealed| != 13
    ensures ValidationHand(v).Err?
  {
    var actor := MatchingMeans(v, s, hand);
    EncodeAllSize(actor.melds, v.actorSeat);
  }

  /**
   * Validation and scoring agree: on requests about the same win, a hand that
   * validation builds is the hand that scoring builds; and scoring builds a hand
   * that validation refuses if and only if the concealed tiles that validation
   * is given are not thirteen, counting a meld as three.
   */
  lemma BuildersAgree(v: ValidationRequest, s: ScoreRequest, hand: HandSnapshot)
    requires Matching(v, s, hand) && SameConcealed(v, s, hand)
    ensures ValidationHand(v).Ok? <==>
              ScoringHand(s, hand).Ok? && 3 * |hand.melds| + |v.privateHand.value.concealed| == 13
    ensures ValidationHand(v).Ok? ==> ValidationHand(v) == ScoringHand(s, hand)
  {
    if 3 * |hand.melds| + |v.privateHand.value.concealed| == 13 {
      var before := Before(v, hand);
      DirectAgreement(v, s, before);
      if multiset(hand.concealed) == multiset(before.concealed) {
        ReorderedHand(s, before, hand);
      } else {
        CanonicalHand(s, before, hand);
      }
    } else {
      NotThirteenRefused(v, s, hand);
    }
  }

  /**
   * The two do differ outside that condition: with the completing tile already
   * among fourteen concealed ones, a hand is scored but refused by validation.
   */
  lemma FullPrivateHandRefused(v: ValidationRequest, s: ScoreRequest, hand: HandSnapshot)
    requires Matching(v, s, hand) && hand.concealed == v.privateHand.value.concealed
    requires 3 * |hand.melds| + |hand.concealed| == HAND_SIZE && ScoringHand(s, hand).Ok?
    ensures ValidationHand(v) == Err(NotFourteen)
  {
    var actor := SameShell(v, s, hand);
    FullTiles(v, s, hand);
  }

  lemma FullTiles(v: ValidationRequest, s: ScoreRequest, hand: HandSnapshot)
    requires Matching(v, s, hand) && hand.concealed == v.privateHand.value.concealed && ScoringTiles(s, hand).Ok?
    ensures ValidationTiles(SelfDrawn(s.winType), v.candidate, v.privateHand.value).Ok?
    ensures |ValidationTiles(SelfDrawn(s.winType), v.candidate, v.privateHand.value).value.0| == |hand.concealed|
  {
    var actor := MatchingMeans(v, s, hand);
  }

  /** A full hand with no melds and no flowers is scored. */
  lemma FullHandScores(s: ScoreRequest, hand: HandSnapshot)
    requires 1 <= s.prevailingWind <= 4 && 1 <= hand.seat <= 4 && hand.melds == [] && hand.flowers == []
    requires |hand.concealed| == HAND_SIZE && s.winningTile in hand.concealed && ToTiles(hand.concealed).Ok?
    ensures ScoringHand(s, hand).Ok?
  {
    var i :| 0 <= i < HAND_SIZE && hand.concealed[i] == s.winningTile;
    assert ToTiles(hand.concealed).value[i] == s.winningTile - 1;
  }

  /** The east player's full hand: a pure straight, a triplet and a pair. */
  lemma StraightHand() returns (hand: HandSnapshot)
    ensures hand == HandSnapshot(1, hand.concealed, [], [], 0, true)
    ensures |hand.concealed| == HAND_SIZE && 12 in hand.concealed && ToTiles(hand.concealed).Ok?
  {
    hand := HandSnapshot(1, [2, 3, 4, 5, 6, 7, 8, 9, 10, 11, 11, 11, 12, 12], [], [], 0, true);
  }

  /** Such a hand exists, won by drawing a tile of its pair. */
  lemma ScoringAcceptsMore() returns (v: ValidationRequest, s: ScoreRequest, hand: HandSnapshot)
    ensures Matching(v, s, hand) && SameConcealed(v, s, hand)
    ensures ScoringHand(s, hand).Ok? && ValidationHand(v) == Err(NotFourteen)
  {
    hand := StraightHand();
    v := ValidationRequest("r", "m", "n", 1, true, true, true, 1, false, 1, CandidateWin(WIN_SELF_DRAW, 12, 1, 1), None,
                           [EnginePlayerState(1, [], [])], Some(PrivateHand(hand.concealed, 12)), None);
    s := ScoreRequest(true, true, 1, false, 1, WIN_SELF_DRAW, 1, 0, 12, [hand], []);
    FullHandScores(s, hand);
    assert v.players[0] == EnginePlayerState(1, [], []);
    assert ActorIs(v.players, 1, v.players[0]);
    FullPrivateHandRefused(v, s, hand);
  }
}
