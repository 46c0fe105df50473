/** How a finished throw is judged: its result, whether the backed side
    wins, what is paid back and which message category is shown. */
module Rules {
  import opened Types

  /** Multiplier applied to the stake on a win: stake back plus equal profit. */
  const PAYOUT_FACTOR: int := 2

  /** The category of the message shown when a round ends, or when the
      loan is taken. Only the category is modelled, not the text. */
  datatype Category = WIN | LOSE | TRIPLE | POOR

  /** A triple is BAO whatever its sum; otherwise a sum in 3..10 is XIU and
      anything else TAI. The result agrees with the band labels. */
  function Classify(d: Dice): (o: Outcome)
    ensures o == BAO <==> (d[0] == d[1] && d[1] == d[2])
    ensures o.Band? ==> InBand(o.side, Sum(d))
  {
    DiceSum(d);
    var sum := Sum(d);
    if d[0] == d[1] && d[1] == d[2] then BAO
    else if sum >= 3 && sum <= 10 then Band(XIU)
    else Band(TAI)
  }

  /** Whether the backed side wins: never on BAO, otherwise exactly when the
      result is that side. */
  function Won(result: Outcome, side: BetOption): (w: bool)
    ensures result == BAO ==> !w
    ensures w <==> result == Band(side)
  {
    if result == BAO then false
    else result.side == side
  }

  /** The credit made when a round ends; the stake itself was already taken
      when the roll started. */
  function Payout(stake: int, won: bool): (credit: int)
    ensures won ==> credit - stake == stake
    ensures !won ==> credit == 0
    ensures stake >= 0 ==> credit >= 0
  {
    if won then stake * PAYOUT_FACTOR else 0
  }

  /** The message pool drawn from when a round ends. */
  function Message(result: Outcome, won: bool): (c: Category)
    ensures c == TRIPLE <==> result == BAO
    ensures c == WIN <==> (won && result != BAO)
    ensures c != POOR
  {
    if result == BAO then TRIPLE
    else if won then WIN
    else LOSE
  }

  /** The result of a throw is a side exactly when the dice are not a
      triple and the sum lies in that side's band. */
  lemma ClassifyByBand(d: Dice, side: BetOption)
    ensures Classify(d) == Band(side) <==>
              (!(d[0] == d[1] && d[1] == d[2]) && InBand(side, Sum(d)))
  {
    DiceSum(d);
    BandsPartition(Sum(d));
  }

  /** Turning every die upside down (face f becomes 7 - f). */
  function Mirror(d: Dice): (m: Dice)
    ensures Sum(m) == 21 - Sum(d)
  {
    var m: Dice := [7 - d[0], 7 - d[1], 7 - d[2]];
    DiceSum(d);
    DiceSum(m);
    m
  }

  /** Upside-down dice keep BAO and swap TAI with XIU; turning them over
      twice restores the throw. */
  lemma MirrorSwapsSides(d: Dice)
    ensures Mirror(Mirror(d)) == d
    ensures Classify(d) == BAO ==> Classify(Mirror(d)) == BAO
    ensures Classify(d).Band? ==> Classify(Mirror(d)) == Band(Opposite(Classify(d).side))
  {
    DiceSum(d);
    DiceSum(Mirror(d));
  }

  /** Whatever side was backed, a triple loses. */
  lemma TripleAlwaysLoses(d: Dice, side: BetOption)
    requires d[0] == d[1] && d[1] == d[2]
    ensures !Won(Classify(d), side)
    ensures Message(Classify(d), Won(Classify(d), side)) == TRIPLE
  {
  }

  /** The throws among the 216 whose result is the given side. */
  function Throws(side: BetOption): set<Dice>
  {
    set a: DiceValue, b: DiceValue, c: DiceValue
      | 1 <= a <= 6 && 1 <= b <= 6 && 1 <= c <= 6 && Classify([a, b, c]) == Band(side)
      :: [a, b, c]
  }

  /** The upside-down images of a set of throws. */
  function MirrorAll(ds: set<Dice>): set<Dice>
  {
    set d | d in ds :: Mirror(d)
  }

  /** Mirroring loses no throw: it is one-to-one, so the image is as large
      as the set. */
  lemma {:induction false} MirrorAllSize(ds: set<Dice>)
    ensures |MirrorAll(ds)| == |ds|
    decreases |ds|
  {
    if ds != {} {
      var x :| x in ds;
      var rest := ds - {x};
      MirrorAllSize(rest);
      assert MirrorAll(ds) == MirrorAll(rest) + {Mirror(x)};
      if Mirror(x) in MirrorAll(rest) {
        var y :| y in rest && Mirror(y) == Mirror(x);
        MirrorSwapsSides(x);
        MirrorSwapsSides(y);
        assert false;
      }
    }
  }

  /** The mirror image of the throws for one side is exactly the throws for
      the other side. */
  lemma MirrorThrows(side: BetOption)
    ensures MirrorAll(Throws(side)) == Throws(Opposite(side))
  {
    forall d | d in MirrorAll(Throws(side))
      ensures d in Throws(Opposite(side))
    {
      var e :| e in Throws(side) && d == Mirror(e);
      MirrorSwapsSides(e);
      assert d == [d[0], d[1], d[2]];
    }
    forall d | d in Throws(Opposite(side))
      ensures d in MirrorAll(Throws(side))
    {
      MirrorSwapsSides(d);
      var e := Mirror(d);
      MirrorSwapsSides(e);
      assert e == [e[0], e[1], e[2]];
      assert e in Throws(side);
    }
  }

  /** TAI and XIU are each the result of the same number of the 216 throws. */
  lemma EqualCounts()
    ensures |Throws(TAI)| == |Throws(XIU)|
  {
    MirrorThrows(TAI);
    MirrorAllSize(Throws(TAI));
  }
}
