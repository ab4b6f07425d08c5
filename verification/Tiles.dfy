// Tiles and sorting, as cpp_engine/src/gb_mahjong_adapter.cc uses them.
//
// A tile is its number in the vendored library, which compares and orders tiles
// by that number alone (cpp_engine/third_party/GB-Mahjong/mahjong/tile.h:125-172).
// std::sort is taken to arrange a vector in ascending order.
module Tiles {
  import opened Wrappers

  type TileId = int

  const TILE_1M: TileId := 1
  const TILE_E: TileId := 28
  const TILE_MEI: TileId := 35
  const TILE_DONG: TileId := 42
  const TILE_SIZE: TileId := 43

  /** The exceptions of the adapter. */
  datatype Error =
    | BadSeat | BadTile | SameSeat | EmptyMeld | BadChiSize | ClaimedNotInChi | BadMeldKind
    | NotWinning | NoWinningTile | NoActor | NoPrivateHand | NotFourteen
    | NoWinnerHand | WinningTileMissing | BadHandSize | BlankIds | MissingParts
    | NoActorSeat | NoAction | NoWinnerSeat | NotAWinningHand

  /** Zero and one are the unspecified and the unknown tile. */
  function ToTile(tile: int): Result<TileId, Error> {
    if tile == 0 || tile == 1 then Err(BadTile) else Ok(tile - 1)
  }

  function ToTiles(tiles: seq<int>): (r: Result<seq<TileId>, Error>)
    ensures r.Ok? <==> forall i | 0 <= i < |tiles| :: tiles[i] != 0 && tiles[i] != 1
    ensures r.Ok? ==> |r.value| == |tiles| && forall i | 0 <= i < |tiles| :: r.value[i] == tiles[i] - 1
    ensures r.Err? ==> r.error == BadTile
  {
    if tiles == [] then Ok([])
    else
      var last := |tiles| - 1;
      var front := ToTiles(tiles[..last]);
      if front.Err? then front
      else
        var tile :- ToTile(tiles[last]);
        Ok(front.value + [tile])
  }

  // ---------- sorting ----------

  ghost predicate AtLeast(s: seq<TileId>, x: TileId) {
    forall y | y in multiset(s) :: x <= y
  }

  ghost predicate Ordered(s: seq<TileId>) {
    s == [] || (AtLeast(s[1..], s[0]) && Ordered(s[1..]))
  }

  function Insert(s: seq<TileId>, x: TileId): (r: seq<TileId>)
    ensures multiset(r) == multiset(s) + multiset{x} && |r| == |s| + 1
  {
    if s == [] || x <= s[0] then [x] + s
    else
      assert s == [s[0]] + s[1..];
      [s[0]] + Insert(s[1..], x)
  }

  lemma {:induction false} InsertOrdered(s: seq<TileId>, x: TileId)
    requires Ordered(s)
    ensures Ordered(Insert(s, x))
  {
    if s == [] || x <= s[0] {
      assert ([x] + s)[1..] == s;
      if s != [] {
        assert s == [s[0]] + s[1..];
        assert AtLeast(s, x);
      }
    } else {
      InsertOrdered(s[1..], x);
      assert Insert(s, x)[1..] == Insert(s[1..], x);
    }
  }

  function Sorted(s: seq<TileId>): (r: seq<TileId>)
    ensures multiset(r) == multiset(s) && |r| == |s|
  {
    if s == [] then []
    else
      assert s == [s[0]] + s[1..];
      Insert(Sorted(s[1..]), s[0])
  }

  lemma {:induction false} SortedOrdered(s: seq<TileId>)
    ensures Ordered(Sorted(s))
  {
    if s != [] {
      SortedOrdered(s[1..]);
      InsertOrdered(Sorted(s[1..]), s[0]);
    }
  }

  lemma HeadIsLeast(a: seq<TileId>, x: TileId)
    requires Ordered(a) && x in multiset(a)
    ensures a != [] && a[0] <= x
  {
    assert a == [a[0]] + a[1..];
  }

  lemma TailMultiset(a: seq<TileId>)
    requires a != []
    ensures multiset(a[1..]) == multiset(a) - multiset{a[0]}
  {
    assert a == [a[0]] + a[1..];
  }

  lemma SameHead(a: seq<TileId>, b: seq<TileId>)
    requires Ordered(a) && Ordered(b) && multiset(a) == multiset(b) && a != []
    ensures b != [] && a[0] == b[0] && multiset(a[1..]) == multiset(b[1..])
    ensures Ordered(a[1..]) && Ordered(b[1..])
  {
    assert a[0] in multiset(a);
    HeadIsLeast(b, a[0]);
    assert b[0] in multiset(b);
    HeadIsLeast(a, b[0]);
    TailMultiset(a);
    TailMultiset(b);
  }

  /** There is only one ascending arrangement of the same tiles. */
  lemma {:induction false} OrderedUnique(a: seq<TileId>, b: seq<TileId>)
    requires Ordered(a) && Ordered(b) && multiset(a) == multiset(b)
    ensures a == b
  {
    if a == [] {
      assert |multiset(b)| == 0;
    } else {
      SameHead(a, b);
      OrderedUnique(a[1..], b[1..]);
      assert a == [a[0]] + a[1..] && b == [b[0]] + b[1..];
    }
  }

  lemma SortedUnique(a: seq<TileId>, b: seq<TileId>)
    requires multiset(a) == multiset(b)
    ensures Sorted(a) == Sorted(b)
  {
    SortedOrdered(a);
    SortedOrdered(b);
    OrderedUnique(Sorted(a), Sorted(b));
  }
}
