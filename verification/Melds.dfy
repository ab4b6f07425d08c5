// Melds and the packs that encode them
// (cpp_engine/src/gb_mahjong_adapter.cc:44-91, 167-231, 505-520, 576-593).
//
// A pack's tile, as in the vendored library: the middle tile of a run, the tile
// of a triplet or of a quad; the constant third argument of the source's packs
// is left out of the datatype.
module Melds {
  import opened Wrappers
  import opened Tiles
  import opened EngineProtocol

  datatype PackKind = Run | Triplet | Quad

  datatype Pack = Pack(kind: PackKind, tile: TileId, offer: int)

  function SeatIndex(seat: int): Result<int, Error> {
    if 1 <= seat <= 4 then Ok(seat - 1) else Err(BadSeat)
  }

  /** How many seats before the actor the tile came from. */
  function RelativeOffer(actor: int, from: int): Result<int, Error> {
    var a :- SeatIndex(actor);
    var f :- SeatIndex(from);
    var diff := (a - f + 4) % 4;
    if diff == 0 then Err(SameSeat) else Ok(diff)
  }

  function ChiOffer(tiles: seq<TileId>, claimed: TileId): Result<int, Error>
    requires |tiles| == 3
  {
    if tiles[0] == claimed then Ok(1)
    else if tiles[1] == claimed then Ok(2)
    else if tiles[2] == claimed then Ok(3)
    else Err(ClaimedNotInChi)
  }

  function EncodeSorted(meld: Meld, tiles: seq<TileId>, actor: int): Result<Pack, Error>
    requires tiles != []
  {
    if meld.kind == MELD_CHI then
      if |tiles| != 3 then Err(BadChiSize)
      else
        var claimed :- ToTile(meld.claimedTile);
        var offer :- ChiOffer(tiles, claimed);
        Ok(Pack(Run, tiles[1], offer))
    else if meld.kind == MELD_PENG then
      if meld.concealed then Ok(Pack(Triplet, tiles[0], 0))
      else
        var offer :- RelativeOffer(actor, meld.fromSeat);
        Ok(Pack(Triplet, tiles[0], offer))
    else if meld.kind == MELD_EXPOSED_KONG then
      var offer :- RelativeOffer(actor, meld.fromSeat);
      Ok(Pack(Quad, tiles[0], offer))
    else if meld.kind == MELD_CONCEALED_KONG then
      Ok(Pack(Quad, tiles[0], 0))
    else if meld.kind == MELD_SUPPLEMENTAL_KONG then
      if meld.concealed then Ok(Pack(Quad, tiles[0], 0))
      else
        var offer :- RelativeOffer(actor, meld.fromSeat);
        Ok(Pack(Quad, tiles[0], offer + 4))
    else Err(BadMeldKind)
  }

  function Encode(meld: Meld, actor: int): Result<Pack, Error> {
    if meld.tiles == [] then Err(EmptyMeld)
    else
      var tiles :- ToTiles(meld.tiles);
      EncodeSorted(meld, Sorted(tiles), actor)
  }

  // ---------- which melds can be encoded ----------

  predicate Known(tile: int) {
    tile != 0 && tile != 1
  }

  predicate FromAnother(actor: int, from: int) {
    1 <= actor <= 4 && 1 <= from <= 4 && actor != from
  }

  /** What the encoder checks, kind by kind, whatever the order of the tiles. */
  ghost predicate Encodable(meld: Meld, actor: int) {
    && meld.tiles != [] && (forall t | t in meld.tiles :: Known(t))
    && if meld.kind == MELD_CHI then
         |meld.tiles| == 3 && meld.claimedTile in meld.tiles
       else if meld.kind == MELD_PENG || meld.kind == MELD_SUPPLEMENTAL_KONG then
         meld.concealed || FromAnother(actor, meld.fromSeat)
       else if meld.kind == MELD_EXPOSED_KONG then FromAnother(actor, meld.fromSeat)
       else meld.kind == MELD_CONCEALED_KONG
  }

  /** The seat that many seats before the actor. */
  function SourceOf(actor: int, offer: int): int {
    (actor - 1 - offer + 4) % 4 + 1
  }

  /** An offer tells how many seats back around the table the tile came from: 1 is the seat before, 3 the one after. */
  lemma OfferIff(actor: int, from: int)
    ensures RelativeOffer(actor, from).Ok? <==> FromAnother(actor, from)
    ensures RelativeOffer(actor, from).Ok? ==>
              from + RelativeOffer(actor, from).value == (if from < actor then actor else actor + 4)
    ensures RelativeOffer(actor, from).Ok? ==>
              1 <= RelativeOffer(actor, from).value <= 3
              && from == SourceOf(actor, RelativeOffer(actor, from).value)
  {
  }

  /** A tile is among the ids exactly when its number is among the meld's. */
  lemma ShiftedMember(numbers: seq<int>, tiles: seq<TileId>, tile: int)
    requires |tiles| == |numbers| && forall i | 0 <= i < |tiles| :: tiles[i] == numbers[i] - 1
    ensures tile in numbers <==> tile - 1 in tiles
  {
    if tile in numbers {
      var i :| 0 <= i < |numbers| && numbers[i] == tile;
      assert tiles[i] == tile - 1;
    }
  }

  lemma SortedMember(tiles: seq<TileId>, id: TileId)
    ensures id in Sorted(tiles) <==> id in tiles
  {
    assert id in Sorted(tiles) <==> id in multiset(Sorted(tiles));
  }

  lemma KnownIff(numbers: seq<int>)
    ensures ToTiles(numbers).Ok? <==> forall t | t in numbers :: Known(t)
  {
    if ToTiles(numbers).Err? {
      var i :| 0 <= i < |numbers| && !Known(numbers[i]);
      assert numbers[i] in numbers;
    }
  }

  /** What the encoder checks once the tiles are translated and sorted. */
  lemma EncodeSortedIff(meld: Meld, tiles: seq<TileId>, actor: int)
    requires tiles != []
    ensures EncodeSorted(meld, tiles, actor).Ok?
       <==> if meld.kind == MELD_CHI then |tiles| == 3 && Known(meld.claimedTile) && meld.claimedTile - 1 in tiles
            else if meld.kind == MELD_PENG || meld.kind == MELD_SUPPLEMENTAL_KONG then
              meld.concealed || FromAnother(actor, meld.fromSeat)
            else if meld.kind == MELD_EXPOSED_KONG then FromAnother(actor, meld.fromSeat)
            else meld.kind == MELD_CONCEALED_KONG
  {
    OfferIff(actor, meld.fromSeat);
  }

  lemma EncodeUnfolds(meld: Meld, actor: int, tiles: seq<TileId>, sorted: seq<TileId>)
    requires meld.tiles != [] && ToTiles(meld.tiles) == Ok(tiles) && Sorted(tiles) == sorted
    ensures sorted != [] && Encode(meld, actor) == EncodeSorted(meld, sorted, actor)
  {
  }

  /** The encoder fails on exactly the melds that are not encodable. */
  lemma EncodesIff(meld: Meld, actor: int)
    ensures Encode(meld, actor).Ok? <==> Encodable(meld, actor)
  {
    KnownIff(meld.tiles);
    if meld.tiles != [] && ToTiles(meld.tiles).Ok? {
      EncodeUnfolds(meld, actor, ToTiles(meld.tiles).value, Sorted(ToTiles(meld.tiles).value));
      ShiftedMember(meld.tiles, ToTiles(meld.tiles).value, meld.claimedTile);
      SortedMember(ToTiles(meld.tiles).value, meld.claimedTile - 1);
      EncodeSortedIff(meld, Sorted(ToTiles(meld.tiles).value), actor);
    }
  }

  // ---------- round trip ----------

  /** What a meld says, apart from the order its tiles are listed in. */
  datatype Meaning = Meaning(
    kind: PackKind, tiles: seq<int>, claimed: Option<int>, source: Option<int>, added: bool)

  /** Three tiles, in any order, that are low and its two successors. */
  predicate IsRun(tiles: seq<int>, low: int) {
    |tiles| == 3 && low in tiles && low + 1 in tiles && low + 2 in tiles
  }

  predicate Suited(low: int) {
    2 <= low <= 8 || 11 <= low <= 17 || 20 <= low <= 26
  }

  /** All the tiles of a list are the same. */
  predicate Same(tiles: seq<int>, t: int) {
    tiles != [] && forall i | 0 <= i < |tiles| :: tiles[i] == t
  }

  /**
   * A run of one suit, a triplet or a quad; claimed from another seat if it is
   * exposed.
   */
  ghost predicate WellFormed(meld: Meld, actor: int) {
    && 1 <= meld.kind <= 5
    && (Exposed(meld) ==> FromAnother(actor, meld.fromSeat))
    && if meld.kind == MELD_CHI then
         meld.claimedTile in meld.tiles && exists low :: Suited(low) && IsRun(meld.tiles, low)
       else
         && |meld.tiles| == (if meld.kind == MELD_PENG then 3 else 4)
         && 2 <= meld.tiles[0] <= 43 && Same(meld.tiles, meld.tiles[0])
  }

  /** Claimed from another seat and shown. */
  predicate Exposed(meld: Meld) {
    || meld.kind == MELD_EXPOSED_KONG
    || ((meld.kind == MELD_PENG || meld.kind == MELD_SUPPLEMENTAL_KONG) && !meld.concealed)
  }

  function KindOf(meld: Meld): PackKind {
    if meld.kind == MELD_CHI then Run else if meld.kind == MELD_PENG then Triplet else Quad
  }

  /** A kong added to a concealed triplet is, like a concealed kong, a quad from nobody. */
  function MeaningOf(meld: Meld): Meaning {
    Meaning(
      KindOf(meld),
      Sorted(meld.tiles),
      if meld.kind == MELD_CHI then Some(meld.claimedTile) else None,
      if Exposed(meld) then Some(meld.fromSeat) else None,
      meld.kind == MELD_SUPPLEMENTAL_KONG && Exposed(meld))
  }

  /** The tiles of a pack, as the vendored library expands it. */
  function GetAllTile(pack: Pack): seq<TileId> {
    match pack.kind
    case Run => [pack.tile - 1, pack.tile, pack.tile + 1]
    case Triplet => [pack.tile, pack.tile, pack.tile]
    case Quad => [pack.tile, pack.tile, pack.tile, pack.tile]
  }

  function Decode(pack: Pack, actor: int): Meaning {
    var all := GetAllTile(pack);
    var numbers := seq(|all|, i requires 0 <= i < |all| => all[i] + 1);
    match pack.kind
    case Run => Meaning(Run, numbers, Some(pack.tile - 1 + pack.offer), None, false)
    case Triplet => Meaning(Triplet, numbers, None, if pack.offer == 0 then None else Some(SourceOf(actor, pack.offer)), false)
    case Quad =>
      if pack.offer == 0 then Meaning(Quad, numbers, None, None, false)
      else if pack.offer <= 4 then Meaning(Quad, numbers, None, Some(SourceOf(actor, pack.offer)), false)
      else Meaning(Quad, numbers, None, Some(SourceOf(actor, pack.offer - 4)), true)
  }

  lemma ThreeInARow(a: int, b: int, c: int, low: int)
    requires low == a || low == b || low == c
    requires low + 1 == a || low + 1 == b || low + 1 == c
    requires low + 2 == a || low + 2 == b || low + 2 == c
    ensures multiset([a, b, c]) == multiset([low, low + 1, low + 2])
  {
  }

  /** The same three tiles, whatever their order. */
  lemma RunMultiset(tiles: seq<int>, low: int)
    requires IsRun(tiles, low)
    ensures multiset(tiles) == multiset([low, low + 1, low + 2])
  {
    assert tiles == [tiles[0], tiles[1], tiles[2]];
    ThreeInARow(tiles[0], tiles[1], tiles[2], low);
  }

  /** Sorting a run puts it in order. */
  lemma SortedRun(tiles: seq<int>, low: int)
    requires IsRun(tiles, low)
    ensures var s := Sorted(tiles);
            |s| == 3 && s[0] == low && s[1] == low + 1 && s[2] == low + 2
  {
    var run := [low, low + 1, low + 2];
    RunMultiset(tiles, low);
    assert run[1..] == [low + 1, low + 2] && run[1..][1..] == [low + 2] && run[1..][1..][1..] == [];
    assert Ordered(run[1..][1..]);
    assert Ordered(run[1..]);
    assert Ordered(run);
    SortedOrdered(tiles);
    OrderedUnique(Sorted(tiles), run);
  }

  /** Sorting equal tiles changes nothing. */
  lemma {:induction false} SortedConstant(tiles: seq<int>, t: int)
    requires forall i | 0 <= i < |tiles| :: tiles[i] == t
    ensures forall i | 0 <= i < |tiles| :: Sorted(tiles)[i] == t
  {
    forall i | 0 <= i < |tiles|
      ensures Sorted(tiles)[i] == t
    {
      assert Sorted(tiles)[i] in multiset(Sorted(tiles));
      assert Sorted(tiles)[i] in tiles;
    }
  }

  lemma RunMember(tiles: seq<int>, low: int, x: int)
    requires IsRun(tiles, low) && x in tiles
    ensures low <= x <= low + 2
  {
    RunMultiset(tiles, low);
    assert x in multiset([low, low + 1, low + 2]);
  }

  lemma RunShifted(numbers: seq<int>, tiles: seq<TileId>, low: int)
    requires IsRun(numbers, low) && |tiles| == |numbers| && forall i | 0 <= i < |tiles| :: tiles[i] == numbers[i] - 1
    ensures IsRun(tiles, low - 1)
  {
    ShiftedMember(numbers, tiles, low);
    ShiftedMember(numbers, tiles, low + 1);
    ShiftedMember(numbers, tiles, low + 2);
  }

  lemma RunKnown(numbers: seq<int>, low: int)
    requires IsRun(numbers, low) && 2 <= low
    ensures ToTiles(numbers).Ok?
  {
    forall t | t in numbers
      ensures Known(t)
    {
      RunMember(numbers, low, t);
    }
    KnownIff(numbers);
  }

  /** The encoder sees a run of ids, one below the numbers. */
  lemma RunIds(numbers: seq<int>, low: int) returns (tiles: seq<TileId>, sorted: seq<TileId>)
    requires IsRun(numbers, low) && 2 <= low
    ensures ToTiles(numbers) == Ok(tiles) && Sorted(tiles) == sorted
    ensures |sorted| == 3 && sorted[0] == low - 1 && sorted[1] == low && sorted[2] == low + 1
  {
    RunKnown(numbers, low);
    tiles := ToTiles(numbers).value;
    RunShifted(numbers, tiles, low);
    SortedRun(tiles, low - 1);
    sorted := Sorted(tiles);
  }

  lemma ChiEncode(meld: Meld, actor: int, low: int, sorted: seq<TileId>)
    requires meld.kind == MELD_CHI && 2 <= low <= meld.claimedTile <= low + 2
    requires |sorted| == 3 && sorted[0] == low - 1 && sorted[1] == low && sorted[2] == low + 1
    ensures EncodeSorted(meld, sorted, actor) == Ok(Pack(Run, low, meld.claimedTile - low + 1))
  {
  }

  /** A chi is encoded by its middle id and the claimed tile's place in the run. */
  lemma ChiPack(meld: Meld, actor: int, low: int)
    requires meld.kind == MELD_CHI && meld.claimedTile in meld.tiles && IsRun(meld.tiles, low) && 2 <= low
    ensures low <= meld.claimedTile <= low + 2
    ensures Encode(meld, actor) == Ok(Pack(Run, low, meld.claimedTile - low + 1))
  {
    RunMember(meld.tiles, low, meld.claimedTile);
    var tiles, sorted := RunIds(meld.tiles, low);
    ChiEncode(meld, actor, low, sorted);
    EncodeUnfolds(meld, actor, tiles, sorted);
  }

  lemma ChiDecode(meld: Meld, actor: int, low: int)
    requires meld.kind == MELD_CHI && IsRun(meld.tiles, low) && low <= meld.claimedTile <= low + 2
    ensures Decode(Pack(Run, low, meld.claimedTile - low + 1), actor) == MeaningOf(meld)
  {
    SortedRun(meld.tiles, low);
  }

  lemma ChiRoundTrip(meld: Meld, actor: int, low: int)
    requires meld.kind == MELD_CHI && meld.claimedTile in meld.tiles && IsRun(meld.tiles, low) && 2 <= low
    ensures Encode(meld, actor).Ok? && Decode(Encode(meld, actor).value, actor) == MeaningOf(meld)
  {
    ChiPack(meld, actor, low);
    ChiDecode(meld, actor, low);
  }

  /** The encoder sees equal tiles as equal ids. */
  lemma SameTilesIds(numbers: seq<int>, t: int) returns (tiles: seq<TileId>, sorted: seq<TileId>)
    requires Same(numbers, t) && 2 <= t
    ensures ToTiles(numbers) == Ok(tiles) && Sorted(tiles) == sorted && sorted != [] && sorted[0] == t - 1
  {
    tiles := ToTiles(numbers).value;
    SortedConstant(tiles, t - 1);
    sorted := Sorted(tiles);
  }

  /** Nothing for a meld from nobody; four more for a kong added to an exposed triplet. */
  function PackOffer(meld: Meld, offer: int): int {
    if !Exposed(meld) then 0 else if meld.kind == MELD_SUPPLEMENTAL_KONG then offer + 4 else offer
  }

  /** Any other meld is encoded by the id of its tile and the seat it came from. */
  lemma SameTilesPack(meld: Meld, actor: int, tiles: seq<TileId>, offer: int)
    requires 2 <= meld.kind <= 5 && tiles != []
    requires Exposed(meld) ==> RelativeOffer(actor, meld.fromSeat) == Ok(offer)
    ensures EncodeSorted(meld, tiles, actor)
         == Ok(Pack(KindOf(meld), tiles[0], PackOffer(meld, offer)))
  {
  }

  /** Reading the pack of a triplet or quad gives back its tile and, if it was exposed, its source. */
  lemma SameTilesDecode(meld: Meld, actor: int, t: int, offer: int)
    requires 2 <= meld.kind <= 5
    requires Same(meld.tiles, t) && |meld.tiles| == if meld.kind == MELD_PENG then 3 else 4
    requires Exposed(meld) ==> 1 <= offer <= 3 && meld.fromSeat == SourceOf(actor, offer)
    ensures Decode(Pack(KindOf(meld), t - 1, PackOffer(meld, offer)), actor) == MeaningOf(meld)
  {
    SortedConstant(meld.tiles, t);
  }

  lemma SameTilesEncode(meld: Meld, actor: int, t: int, offer: int)
    requires 2 <= meld.kind <= 5 && 2 <= t && Same(meld.tiles, t)
    requires Exposed(meld) ==> RelativeOffer(actor, meld.fromSeat) == Ok(offer)
    ensures Encode(meld, actor) == Ok(Pack(KindOf(meld), t - 1, PackOffer(meld, offer)))
  {
    var tiles, sorted := SameTilesIds(meld.tiles, t);
    EncodeUnfolds(meld, actor, tiles, sorted);
    SameTilesPack(meld, actor, sorted, offer);
  }

  lemma SameTilesRoundTrip(meld: Meld, actor: int, t: int)
    requires 2 <= meld.kind <= 5 && 2 <= t && (Exposed(meld) ==> FromAnother(actor, meld.fromSeat))
    requires Same(meld.tiles, t) && |meld.tiles| == if meld.kind == MELD_PENG then 3 else 4
    ensures Encode(meld, actor).Ok? && Decode(Encode(meld, actor).value, actor) == MeaningOf(meld)
  {
    OfferIff(actor, meld.fromSeat);
    var offer := if Exposed(meld) then RelativeOffer(actor, meld.fromSeat).value else 0;
    SameTilesEncode(meld, actor, t, offer);
    SameTilesDecode(meld, actor, t, offer);
  }

  /**
   * Every well-formed meld is encodable, and its pack can be read back: tiles,
   * kind, claimed tile of a run, and the seat an exposed triplet or quad came
   * from, for every order the tiles were listed in.
   */
  lemma MeldRoundTrip(meld: Meld, actor: int)
    requires WellFormed(meld, actor)
    ensures Encode(meld, actor).Ok? && Decode(Encode(meld, actor).value, actor) == MeaningOf(meld)
  {
    if meld.kind == MELD_CHI {
      var low :| Suited(low) && IsRun(meld.tiles, low);
      ChiRoundTrip(meld, actor, low);
    } else {
      SameTilesRoundTrip(meld, actor, meld.tiles[0]);
    }
  }

  /** A pack's tile is the middle one of a run, or the tile of a triplet or quad; its offer tells a run's claimed tile. */
  ghost predicate PackTells(pack: Pack, meld: Meld, actor: int) {
    if meld.kind == 1 then
      && pack.kind.Run? && 1 <= pack.offer <= 3
      && IsRun(meld.tiles, pack.tile) && meld.claimedTile == pack.tile + pack.offer - 1
    else
      && pack.kind == (if meld.kind == 2 then Triplet else Quad) && pack.tile + 1 in meld.tiles
      && (if meld.kind == 4 || (meld.kind != 3 && meld.concealed) then pack.offer == 0
          else
            var offer := if meld.kind == 5 then pack.offer - 4 else pack.offer;
            1 <= offer <= 3 && meld.fromSeat + offer == if meld.fromSeat < actor then actor else actor + 4)
  }

  /** The encoder's pack of every well-formed meld, field by field. */
  lemma EncodeTells(meld: Meld, actor: int)
    requires WellFormed(meld, actor)
    ensures Encode(meld, actor).Ok? && PackTells(Encode(meld, actor).value, meld, actor)
  {
    if meld.kind == MELD_CHI {
      var low :| Suited(low) && IsRun(meld.tiles, low);
      ChiPack(meld, actor, low);
    } else {
      OfferIff(actor, meld.fromSeat);
      var offer := if Exposed(meld) then RelativeOffer(actor, meld.fromSeat).value else 0;
      SameTilesEncode(meld, actor, meld.tiles[0], offer);
    }
  }

  /** A well-formed meld expands to exactly its own tiles: three, or four for a kong. */
  lemma PackTiles(meld: Meld, actor: int)
    requires WellFormed(meld, actor)
    ensures Encode(meld, actor).Ok?
    ensures var all := GetAllTile(Encode(meld, actor).value);
            && |all| == (if meld.kind == MELD_CHI || meld.kind == MELD_PENG then 3 else 4)
            && |all| == |meld.tiles|
            && forall i | 0 <= i < |all| :: i < |Sorted(meld.tiles)| && all[i] + 1 == Sorted(meld.tiles)[i]
  {
    MeldRoundTrip(meld, actor);
    var pack := Encode(meld, actor).value;
    assert Decode(pack, actor).kind == MeaningOf(meld).kind && Decode(pack, actor).tiles == Sorted(meld.tiles);
  }

  // ---------- the melds that validation proposes ----------

  function DeduceMeldKind(claim: ClaimAction): int {
    if claim.kind == CLAIM_CHI then MELD_CHI
    else if claim.kind == CLAIM_PENG then MELD_PENG
    else if claim.kind == CLAIM_EXPOSED_KONG then MELD_EXPOSED_KONG
    else 0
  }

  function ProposedMeld(claim: ClaimAction): Meld {
    Meld(DeduceMeldKind(claim), claim.consume + [claim.target], claim.source, claim.target, false, claim.sourceEventSeq)
  }

  /**
   * The meld proposed for a claim is encodable if and only if the claim's tiles
   * are known, it is a chi of two consumed tiles, or a peng or kong claimed
   * from another seat; its claimed tile is in it by construction.
   */
  lemma ProposedEncodesIff(claim: ClaimAction, actor: int)
    ensures Encode(ProposedMeld(claim), actor).Ok?
       <==> && Known(claim.target) && (forall t | t in claim.consume :: Known(t))
            && (|| (claim.kind == CLAIM_CHI && |claim.consume| == 2)
                || ((claim.kind == CLAIM_PENG || claim.kind == CLAIM_EXPOSED_KONG) && FromAnother(actor, claim.source)))
  {
    var meld := ProposedMeld(claim);
    EncodesIff(meld, actor);
    assert meld.tiles[|claim.consume|] == claim.target;
    assert forall t :: t in meld.tiles <==> t in claim.consume || t == claim.target;
  }
}
