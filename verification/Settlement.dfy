// How a win is settled (cpp_engine/src/gb_mahjong_adapter.cc:637-664).
module Settlement {
  import opened HandSpec

  /** A hand's delta and new total. */
  datatype SeatDelta = SeatDelta(seat: int, delta: int, finalTotal: int)

  /** Who won from whom, and what each loser owes. */
  datatype Terms = Terms(selfDrawn: bool, winnerSeat: int, discarderSeat: int, unit: int)

  /** At least one base point. */
  function UnitDelta(basePoints: uint32, fan: int32): int {
    (if basePoints > 1 then basePoints else 1) * fan
  }

  function DeltaOf(terms: Terms, count: nat, seat: int): int {
    if seat == terms.winnerSeat then if terms.selfDrawn then terms.unit * (count - 1) else terms.unit
    else if terms.selfDrawn then -terms.unit
    else if seat == terms.discarderSeat then -terms.unit
    else 0
  }

  function Row(terms: Terms, count: nat, hand: HandSnapshot): SeatDelta {
    var delta := DeltaOf(terms, count, hand.seat);
    SeatDelta(hand.seat, delta, hand.currentScore + delta)
  }

  /** One row for each hand; every row depends on the number of hands settled. */
  function Rows(terms: Terms, count: nat, hands: seq<HandSnapshot>): seq<SeatDelta> {
    seq(|hands|, i requires 0 <= i < |hands| => Row(terms, count, hands[i]))
  }

  // ---------- sums ----------

  function SumOf(s: seq<int>): int {
    if s == [] then 0 else SumOf(s[..|s| - 1]) + s[|s| - 1]
  }

  function DeltasOf(rows: seq<SeatDelta>): seq<int> {
    seq(|rows|, i requires 0 <= i < |rows| => rows[i].delta)
  }

  function TotalsOf(rows: seq<SeatDelta>): seq<int> {
    seq(|rows|, i requires 0 <= i < |rows| => rows[i].finalTotal)
  }

  function ScoresOf(hands: seq<HandSnapshot>): seq<int> {
    seq(|hands|, i requires 0 <= i < |hands| => hands[i].currentScore)
  }

  /** How many hands sit in the winner's seat. */
  function Winners(terms: Terms, hands: seq<HandSnapshot>): nat {
    if hands == [] then 0
    else Winners(terms, hands[..|hands| - 1]) + if hands[|hands| - 1].seat == terms.winnerSeat then 1 else 0
  }

  /** How many hands pay for a discard: in the discarder's seat, unless it is the winner's. */
  function Payers(terms: Terms, hands: seq<HandSnapshot>): nat {
    if hands == [] then 0
    else
      var seat := hands[|hands| - 1].seat;
      Payers(terms, hands[..|hands| - 1])
      + if seat == terms.discarderSeat && seat != terms.winnerSeat then 1 else 0
  }

  lemma RowsFront(terms: Terms, count: nat, hands: seq<HandSnapshot>)
    requires hands != []
    ensures var front, last := hands[..|hands| - 1], hands[|hands| - 1];
            && SumOf(DeltasOf(Rows(terms, count, hands)))
               == SumOf(DeltasOf(Rows(terms, count, front))) + DeltaOf(terms, count, last.seat)
            && SumOf(TotalsOf(Rows(terms, count, hands)))
               == SumOf(TotalsOf(Rows(terms, count, front))) + last.currentScore + DeltaOf(terms, count, last.seat)
            && SumOf(ScoresOf(hands)) == SumOf(ScoresOf(front)) + last.currentScore
  {
    var front, n := hands[..|hands| - 1], |hands| - 1;
    assert DeltasOf(Rows(terms, count, hands))[..n] == DeltasOf(Rows(terms, count, front));
    assert TotalsOf(Rows(terms, count, hands))[..n] == TotalsOf(Rows(terms, count, front));
    assert ScoresOf(hands)[..n] == ScoresOf(front);
  }

  lemma SelfDrawStep(unit: int, winners: int, count: int, size: int)
    ensures unit * ((winners + 1) * count - (size + 1)) == unit * (winners * count - size) + unit * (count - 1)
    ensures unit * (winners * count - (size + 1)) == unit * (winners * count - size) - unit
  {
    assert (winners + 1) * count - (size + 1) == (winners * count - size) + (count - 1);
  }

  lemma DiscardStep(unit: int, x: int)
    ensures unit * (x + 1) == unit * x + unit && unit * (x - 1) == unit * x - unit
  {
  }

  /** What a settlement adds up to, in terms of who sits where. */
  lemma {:induction false} SumOfDeltas(terms: Terms, count: nat, hands: seq<HandSnapshot>)
    ensures SumOf(DeltasOf(Rows(terms, count, hands)))
         == if terms.selfDrawn then terms.unit * (Winners(terms, hands) * count - |hands|)
            else terms.unit * (Winners(terms, hands) - Payers(terms, hands))
  {
    if hands != [] {
      var front, last := hands[..|hands| - 1], hands[|hands| - 1];
      SumOfDeltas(terms, count, front);
      RowsFront(terms, count, hands);
      SelfDrawStep(terms.unit, Winners(terms, front), count, |front|);
      DiscardStep(terms.unit, Winners(terms, front) - Payers(terms, front));
    }
  }

  // ---------- zero sum ----------

  /** Somebody wins and, off self-draw, somebody pays; nobody twice. */
  predicate Balanced(terms: Terms, hands: seq<HandSnapshot>) {
    || terms.unit == 0 || hands == []
    || if terms.selfDrawn then Winners(terms, hands) == 1 else Winners(terms, hands) == Payers(terms, hands)
  }

  function Settle(terms: Terms, hands: seq<HandSnapshot>): seq<SeatDelta> {
    Rows(terms, |hands|, hands)
  }

  lemma ProductZero(a: int, b: int)
    ensures a * b == 0 <==> a == 0 || b == 0
  {
  }

  /** The deltas of a settlement cancel if and only if it is balanced. */
  lemma ZeroSumIff(terms: Terms, hands: seq<HandSnapshot>)
    ensures SumOf(DeltasOf(Settle(terms, hands))) == 0 <==> Balanced(terms, hands)
  {
    var n, w := |hands|, Winners(terms, hands);
    SumOfDeltas(terms, n, hands);
    if terms.selfDrawn {
      assert w * n - n == (w - 1) * n;
      ProductZero(terms.unit, (w - 1) * n);
      ProductZero(w - 1, n);
    } else {
      ProductZero(terms.unit, w - Payers(terms, hands));
    }
  }

  /** Totals move by exactly the sum of the deltas. */
  lemma {:induction false} TotalsMove(terms: Terms, count: nat, hands: seq<HandSnapshot>)
    ensures SumOf(TotalsOf(Rows(terms, count, hands)))
         == SumOf(ScoresOf(hands)) + SumOf(DeltasOf(Rows(terms, count, hands)))
  {
    if hands != [] {
      TotalsMove(terms, count, hands[..|hands| - 1]);
      RowsFront(terms, count, hands);
    }
  }

  lemma TotalsConservedIff(terms: Terms, hands: seq<HandSnapshot>)
    ensures SumOf(TotalsOf(Settle(terms, hands))) == SumOf(ScoresOf(hands)) <==> Balanced(terms, hands)
  {
    TotalsMove(terms, |hands|, hands);
    ZeroSumIff(terms, hands);
  }

  lemma {:induction false} CountsOf(terms: Terms, hands: seq<HandSnapshot>)
    ensures Winners(terms, hands) > 0 <==> exists h :: h in hands && h.seat == terms.winnerSeat
    ensures Payers(terms, hands) > 0
       <==> exists h :: h in hands && h.seat == terms.discarderSeat && h.seat != terms.winnerSeat
  {
    if hands != [] {
      CountsOf(terms, hands[..|hands| - 1]);
      assert forall h :: h in hands <==> h in hands[..|hands| - 1] || h == hands[|hands| - 1];
    }
  }

  /** A discard win whose discarder is not among the hands pays the winner out of nothing. */
  lemma NobodyPays(terms: Terms, hands: seq<HandSnapshot>)
    requires !terms.selfDrawn && terms.unit > 0
    requires exists h :: h in hands && h.seat == terms.winnerSeat
    requires forall h | h in hands :: h.seat == terms.discarderSeat ==> h.seat == terms.winnerSeat
    ensures SumOf(DeltasOf(Settle(terms, hands))) == terms.unit * Winners(terms, hands)
    ensures SumOf(DeltasOf(Settle(terms, hands))) > 0
  {
    CountsOf(terms, hands);
    SumOfDeltas(terms, |hands|, hands);
    ProductPositive(terms.unit, Winners(terms, hands));
  }

  /** With no hand in the winner's seat, the losers of a self-draw pay nobody. */
  lemma NobodyWins(terms: Terms, hands: seq<HandSnapshot>)
    requires terms.selfDrawn && terms.unit > 0 && hands != []
    requires forall h | h in hands :: h.seat != terms.winnerSeat
    ensures SumOf(DeltasOf(Settle(terms, hands))) == -(terms.unit * |hands|)
    ensures SumOf(DeltasOf(Settle(terms, hands))) < 0
  {
    CountsOf(terms, hands);
    SumOfDeltas(terms, |hands|, hands);
    ProductPositive(terms.unit, |hands|);
  }

  lemma ProductPositive(a: int, b: int)
    requires a > 0 && b > 0
    ensures a * b > 0 && a * -b == -(a * b)
  {
  }

  // ---------- distinct seats ----------

  ghost predicate DistinctSeats(hands: seq<HandSnapshot>) {
    forall i, j | 0 <= i < j < |hands| :: hands[i].seat != hands[j].seat
  }

  lemma {:induction false} CountsOfDistinct(terms: Terms, hands: seq<HandSnapshot>)
    requires DistinctSeats(hands)
    ensures Winners(terms, hands) == if exists h :: h in hands && h.seat == terms.winnerSeat then 1 else 0
    ensures Payers(terms, hands)
         == if exists h :: h in hands && h.seat == terms.discarderSeat && h.seat != terms.winnerSeat then 1 else 0
  {
    if hands != [] {
      var front, last := hands[..|hands| - 1], hands[|hands| - 1];
      CountsOfDistinct(terms, front);
      assert forall h :: h in hands <==> h in front || h == last;
    }
  }

  /**
   * With distinct seats, the winner among them and, off self-draw, a discarder
   * other than the winner, nothing is created or lost.
   */
  lemma OrdinarySettlement(terms: Terms, hands: seq<HandSnapshot>, winner: HandSnapshot, discarder: HandSnapshot)
    requires DistinctSeats(hands) && winner in hands && winner.seat == terms.winnerSeat
    requires terms.selfDrawn
          || (discarder in hands && discarder.seat == terms.discarderSeat && terms.discarderSeat != terms.winnerSeat)
    ensures SumOf(DeltasOf(Settle(terms, hands))) == 0
    ensures SumOf(TotalsOf(Settle(terms, hands))) == SumOf(ScoresOf(hands))
  {
    CountsOfDistinct(terms, hands);
    ZeroSumIff(terms, hands);
    TotalsConservedIff(terms, hands);
  }

  /** Only the winner gains; every other hand pays on self-draw, only the discarder's otherwise. */
  lemma OnlyTheWinnerGains(terms: Terms, hands: seq<HandSnapshot>, i: nat)
    requires terms.unit > 0 && i < |hands|
    ensures var row := Settle(terms, hands)[i];
            && row.seat == hands[i].seat && row.finalTotal - row.delta == hands[i].currentScore
            && (row.delta > 0 <==> row.seat == terms.winnerSeat && (terms.selfDrawn ==> |hands| > 1))
            && (row.delta < 0 <==> row.seat != terms.winnerSeat && (terms.selfDrawn || row.seat == terms.discarderSeat))
            && (row.delta < 0 ==> row.delta == -terms.unit)
  {
    if terms.selfDrawn && |hands| > 1 {
      assert terms.unit * (|hands| - 1) >= terms.unit;
    }
  }

  // ---------- who pays what ----------

  /**
   * The row of one hand when the winning hand is worth some fan: the stake is the
   * fan, times the base points if there are any. A win of kind 1 or 4 is paid by
   * every other hand, any other by the discarder's alone.
   */
  ghost predicate Paid(winType: int, winnerSeat: int, discarderSeat: int, basePoints: uint32, fan: int32,
                       count: nat, hand: HandSnapshot, row: SeatDelta) {
    var stake := (if basePoints == 0 then 1 else basePoints) * fan;
    && row.seat == hand.seat && row.finalTotal == hand.currentScore + row.delta
    && if winType == 1 || winType == 4 then
         row.delta == if hand.seat == winnerSeat then stake * (count - 1) else -stake
       else
         row.delta == if hand.seat == winnerSeat then stake else if hand.seat == discarderSeat then -stake else 0
  }

  /** Every hand has its row, in the order of the hands. */
  ghost predicate AllPaid(winType: int, winnerSeat: int, discarderSeat: int, basePoints: uint32, fan: int32,
                          hands: seq<HandSnapshot>, rows: seq<SeatDelta>) {
    && |rows| == |hands|
    && forall i | 0 <= i < |hands| ::
         Paid(winType, winnerSeat, discarderSeat, basePoints, fan, |hands|, hands[i], rows[i])
  }

  /** The stake is worth something exactly when the hand is. */
  lemma UnitSign(basePoints: uint32, fan: int32)
    ensures UnitDelta(basePoints, fan) > 0 <==> fan > 0
  {
    if fan > 0 {
      ProductGrows(1, if basePoints > 1 then basePoints else 1, fan);
    } else {
      ProductGrows(0, if basePoints > 1 then basePoints else 1, -(fan as int));
    }
  }

  lemma RowPaid(winType: int, winnerSeat: int, discarderSeat: int, basePoints: uint32, fan: int32, count: nat,
                hand: HandSnapshot)
    ensures Paid(winType, winnerSeat, discarderSeat, basePoints, fan, count, hand,
                 Row(Terms(SelfDrawn(winType), winnerSeat, discarderSeat, UnitDelta(basePoints, fan)), count, hand))
  {
  }

  /** The settled rows are the ones that every hand is to be paid. */
  lemma SettlePays(winType: int, winnerSeat: int, discarderSeat: int, basePoints: uint32, fan: int32,
                   hands: seq<HandSnapshot>)
    ensures AllPaid(winType, winnerSeat, discarderSeat, basePoints, fan, hands,
                    Settle(Terms(SelfDrawn(winType), winnerSeat, discarderSeat, UnitDelta(basePoints, fan)), hands))
  {
    forall i | 0 <= i < |hands|
      ensures Paid(winType, winnerSeat, discarderSeat, basePoints, fan, |hands|, hands[i],
                   Settle(Terms(SelfDrawn(winType), winnerSeat, discarderSeat, UnitDelta(basePoints, fan)), hands)[i])
    {
      RowPaid(winType, winnerSeat, discarderSeat, basePoints, fan, |hands|, hands[i]);
    }
  }

  // ---------- one settlement after another ----------

  lemma {:induction false} SumOfRemoved(s: seq<int>, i: nat)
    requires i < |s|
    ensures SumOf(s) == SumOf(s[..i] + s[i + 1..]) + s[i]
    decreases |s|
  {
    var front, rest := s[..|s| - 1], s[..i] + s[i + 1..];
    if i == |s| - 1 {
      assert rest == front;
    } else {
      SumOfRemoved(front, i);
      assert rest[..|rest| - 1] == front[..i] + front[i + 1..];
      assert rest[|rest| - 1] == s[|s| - 1];
    }
  }

  lemma Removed(s: seq<int>, i: nat)
    requires i < |s|
    ensures multiset(s[..i] + s[i + 1..]) == multiset(s) - multiset{s[i]}
  {
    assert s == s[..i] + [s[i]] + s[i + 1..];
  }

  /** A sum does not depend on the order. */
  lemma {:induction false} SumOfReordered(a: seq<int>, b: seq<int>)
    requires multiset(a) == multiset(b)
    ensures SumOf(a) == SumOf(b)
    decreases |a|
  {
    if a == [] {
      assert |multiset(b)| == 0;
    } else {
      var n := |a| - 1;
      Removed(a, n);
      assert a[..n] + a[n + 1..] == a[..n];
      assert a[n] in multiset(b);
      var i :| 0 <= i < |b| && b[i] == a[n];
      Removed(b, i);
      SumOfReordered(a[..n], b[..i] + b[i + 1..]);
      SumOfRemoved(b, i);
    }
  }

  datatype Round = Round(terms: Terms, hands: seq<HandSnapshot>)

  /** Each settlement starts from the totals the one before ended with, in any order. */
  ghost predicate Chained(rounds: seq<Round>) {
    forall k | 0 < k < |rounds| ::
      multiset(ScoresOf(rounds[k].hands)) == multiset(TotalsOf(Settle(rounds[k - 1].terms, rounds[k - 1].hands)))
  }

  /** Over any number of balanced settlements, the sum of all scores stays what it was. */
  lemma {:induction false} ChainConserves(rounds: seq<Round>)
    requires rounds != [] && Chained(rounds)
    requires forall k | 0 <= k < |rounds| :: Balanced(rounds[k].terms, rounds[k].hands)
    ensures SumOf(TotalsOf(Settle(rounds[|rounds| - 1].terms, rounds[|rounds| - 1].hands)))
         == SumOf(ScoresOf(rounds[0].hands))
  {
    var n := |rounds| - 1;
    TotalsConservedIff(rounds[n].terms, rounds[n].hands);
    if n > 0 {
      ChainConserves(rounds[..n]);
      SumOfReordered(ScoresOf(rounds[n].hands), TotalsOf(Settle(rounds[n - 1].terms, rounds[n - 1].hands)));
    }
  }

  // ---------- in 64 bits ----------

  const INT64_MAX := 0x7FFF_FFFF_FFFF_FFFF
  const UINT32_MAX := 0xFFFF_FFFF

  predicate InInt64(x: int) {
    -0x8000_0000_0000_0000 <= x <= 0x7FFF_FFFF_FFFF_FFFF
  }

  /** Every delta and every total of the settlement is a 64-bit number. */
  ghost predicate Fits(terms: Terms, hands: seq<HandSnapshot>) {
    forall i | 0 <= i < |hands| ::
      InInt64(Row(terms, |hands|, hands[i]).delta) && InInt64(Row(terms, |hands|, hands[i]).finalTotal)
  }

  lemma ProductGrows(a: int, x: int, b: nat)
    requires a <= x
    ensures a * b <= x * b
  {
    assert x * b == a * b + (x - a) * b;
  }

  lemma ProductBound(a: nat, b: int, x: int, y: int)
    requires a <= x && -y <= b <= y
    ensures -(x * y) <= a * b <= x * y
  {
    ProductGrows(b, y, a);
    ProductGrows(-b, y, a);
    ProductGrows(a, x, y);
    assert -b * a == -(a * b);
  }

  /** The unit never overflows: base points are 32-bit unsigned and fan 32-bit signed. */
  lemma UnitFits(basePoints: uint32, fan: int32)
    ensures -INT64_MAX <= UnitDelta(basePoints, fan) <= INT64_MAX
  {
    ProductBound(if basePoints > 1 then basePoints else 1, fan, UINT32_MAX, 0x8000_0000);
  }

  /** The most that one hand can win or lose: the unit, from every other hand. */
  function Stake(unit: int, count: nat): int {
    unit * (if count > 1 then count - 1 else 1)
  }

  lemma DeltaWithinStake(terms: Terms, count: nat, seat: int)
    requires 0 <= terms.unit && 1 <= count
    ensures -Stake(terms.unit, count) <= DeltaOf(terms, count, seat) <= Stake(terms.unit, count)
  {
    ProductGrows(1, if count > 1 then count - 1 else 1, terms.unit);
    assert terms.unit * (if count > 1 then count - 1 else 1) == (if count > 1 then count - 1 else 1) * terms.unit;
  }

  /**
   * No settlement of any number of hands overflows as long as the stake and the
   * greatest score together do not.
   */
  lemma StakeFits(terms: Terms, hands: seq<HandSnapshot>, scores: int)
    requires 0 <= terms.unit && Stake(terms.unit, |hands|) + scores <= INT64_MAX
    requires forall h | h in hands :: -scores <= h.currentScore <= scores
    ensures Fits(terms, hands)
  {
    forall i | 0 <= i < |hands|
      ensures InInt64(Row(terms, |hands|, hands[i]).delta) && InInt64(Row(terms, |hands|, hands[i]).finalTotal)
    {
      assert hands[i] in hands;
      DeltaWithinStake(terms, |hands|, hands[i].seat);
    }
  }

  /** In particular four hands fit while fan stay within 2^28 and scores within 2^62. */
  lemma FourHandsFit(terms: Terms, hands: seq<HandSnapshot>, basePoints: uint32, fan: int32)
    requires terms.unit == UnitDelta(basePoints, fan)
    requires 0 <= fan <= 0x1000_0000 && |hands| <= 4
    requires forall h | h in hands :: -0x4000_0000_0000_0000 <= h.currentScore <= 0x4000_0000_0000_0000
    ensures Fits(terms, hands)
  {
    ProductBound(if basePoints > 1 then basePoints else 1, fan, UINT32_MAX, 0x1000_0000);
    assert 0 <= terms.unit by {
      ProductGrows(0, if basePoints > 1 then basePoints else 1, fan);
    }
    ProductBound(if |hands| > 1 then |hands| - 1 else 1, terms.unit, 3, UINT32_MAX * 0x1000_0000);
    assert Stake(terms.unit, |hands|) == (if |hands| > 1 then |hands| - 1 else 1) * terms.unit;
    StakeFits(terms, hands, 0x4000_0000_0000_0000);
  }

  /**
   * The settlement loop on 64-bit numbers. It is defined if and only if no
   * operation of it overflows, and that is if and only if all results fit; where
   * it is not, the source's arithmetic means nothing and the loop is left.
   */
  method SettleHands(winType: int, winnerSeat: int, discarderSeat: int, basePoints: uint32, fan: int32,
                     hands: seq<HandSnapshot>)
    returns (rows: seq<SeatDelta>, defined: bool)
    ensures defined <==> Fits(Terms(SelfDrawn(winType), winnerSeat, discarderSeat, UnitDelta(basePoints, fan)), hands)
    ensures defined ==>
              rows == Settle(Terms(SelfDrawn(winType), winnerSeat, discarderSeat, UnitDelta(basePoints, fan)), hands)
    ensures defined ==> AllPaid(winType, winnerSeat, discarderSeat, basePoints, fan, hands, rows)
  {
    UnitFits(basePoints, fan);
    SettlePays(winType, winnerSeat, discarderSeat, basePoints, fan, hands);
    var unit := (if basePoints > 1 then basePoints else 1) * fan;
    assert InInt64(unit) && InInt64(-unit);
    ghost var terms := Terms(SelfDrawn(winType), winnerSeat, discarderSeat, unit);
    rows, defined := [], false;
    for i := 0 to |hands|
      invariant |rows| == i && forall k | 0 <= k < i :: rows[k] == Row(terms, |hands|, hands[k])
      invariant forall k | 0 <= k < i :: InInt64(rows[k].delta) && InInt64(rows[k].finalTotal)
      invariant !defined
    {
      var hand, delta := hands[i], 0;
      if hand.seat == winnerSeat {
        if SelfDrawn(winType) {
          delta := unit * (|hands| - 1);
        } else {
          delta := unit;
        }
      } else if SelfDrawn(winType) {
        delta := -unit;
      } else if hand.seat == discarderSeat {
        delta := -unit;
      }
      assert delta == Row(terms, |hands|, hand).delta;
      if !InInt64(delta) || !InInt64(hand.currentScore + delta) {
        return;
      }
      rows := rows + [SeatDelta(hand.seat, delta, hand.currentScore + delta)];
    }
    defined := true;
  }
}
