/** The record types of the dice game: die faces, the two betting sides,
    a round's result and the history record kept for each round. */
module Types {

  /** A die face: one of the literals 1 through 6. */
  type DiceValue = v: int | 1 <= v <= 6 witness 1

  /** The three dice of one throw. */
  type Dice = d: seq<DiceValue> | |d| == 3 witness [1, 1, 1]

  /** The two sides a player can back: TAI (high) and XIU (low). */
  datatype BetOption = TAI | XIU

  /** The result of a round: the side whose band the sum fell in, or BAO
      when all three dice show the same face. */
  datatype Outcome = Band(side: BetOption) | BAO

  /** A value that may be absent (the source's `null`, or a failed parse). */
  datatype Option<+T> = None | Some(value: T)

  /** One entry of the round history. `id` is a round counter standing in
      for the creation timestamp. */
  datatype GameHistory = GameHistory(id: nat, dice: Dice, sum: int, result: Outcome)

  /** Left fold of + starting from 0. */
  function Sum(xs: seq<int>): int
  {
    if |xs| == 0 then 0 else Sum(xs[..|xs| - 1]) + xs[|xs| - 1]
  }

  /** The sum band printed under each side's button: TAI 11-18, XIU 3-10. */
  predicate InBand(side: BetOption, sum: int)
  {
    match side
    case TAI => 11 <= sum <= 18
    case XIU => 3 <= sum <= 10
  }

  /** The other side. */
  function Opposite(side: BetOption): (o: BetOption)
    ensures o != side
  {
    match side
    case TAI => XIU
    case XIU => TAI
  }

  /** Every die sequence sums to between one and six per die. */
  lemma {:induction false} SumBounds(xs: seq<DiceValue>)
    ensures |xs| <= Sum(xs) <= 6 * |xs|
  {
    if |xs| > 0 {
      SumBounds(xs[..|xs| - 1]);
    }
  }

  /** The sum of three dice is the sum of its three faces, and lies in 3..18. */
  lemma DiceSum(d: Dice)
    ensures Sum(d) == d[0] as int + d[1] as int + d[2] as int
    ensures 3 <= Sum(d) <= 18
  {
    var two := d[..2];
    var one := two[..1];
    assert one == [d[0]] && one[..0] == [];
    assert Sum(one) == d[0];
    assert Sum(two) == Sum(one) + d[1];
    SumBounds(d);
  }

  /** There are exactly two sides. */
  lemma TwoSides(side: BetOption)
    ensures side == TAI || side == XIU
    ensures TAI != XIU
  {
  }

  /** The two bands are disjoint and together cover every three-dice sum. */
  lemma BandsPartition(sum: int)
    ensures 3 <= sum <= 18 ==> (InBand(TAI, sum) <==> !InBand(XIU, sum))
    ensures (InBand(TAI, sum) || InBand(XIU, sum)) ==> 3 <= sum <= 18
  {
  }
}
