/** The session as the page drives it: each player action or timer expiry
    is one step, guarded the way the page disables its controls. This
    module states the invariant every reachable session keeps, what one
    whole round does to the balance, and the worked scenarios. */
module Play {
  import opened Types
  import opened Rules
  import opened Game

  /** Everything that can happen to a session: a click, an edit of the bet
      field (already parsed), or the roll timer firing with the final dice. */
  datatype Action =
    | ChooseSide(side: BetOption)
    | TypeBet(parsed: Option<int>)
    | Preset(amount: int)
    | AllIn
    | Roll
    | Land(dice: Dice)
    | TakeLoan

  /** One step. Side buttons ignore clicks while rolling; the bet field,
      the preset buttons and the roll button are disabled while rolling;
      ALL-IN stays enabled; the timer fires only for a roll in progress.
      The loan is allowed at any time, a superset of when the offer shows. */
  function Step(s: Session, a: Action): Session
  {
    match a
    case ChooseSide(side) => SelectSide(s, side)
    case TypeBet(parsed) => if s.phase.Rolling? then s else SetBetAmount(s, parsed)
    case Preset(amount) =>
      if s.phase.Rolling? || amount !in PRESETS then s else QuickSetBet(s, amount)
    case AllIn => QuickSetBet(s, s.balance)
    case Roll => if s.phase.Rolling? then s else StartRoll(s)
    case Land(d) => if s.phase.Rolling? then ResolveRoll(s, d) else s
    case TakeLoan => RequestLoan(s)
  }

  /** The session after a sequence of actions. */
  function Run(s: Session, actions: seq<Action>): Session
    decreases |actions|
  {
    if |actions| == 0 then s else Run(Step(s, actions[0]), actions[1..])
  }

  /** A well-formed history entry: its sum and result are those of its dice
      and its id was handed out before `rounds`. */
  predicate GoodRecord(rec: GameHistory, rounds: nat)
  {
    rec.sum == Sum(rec.dice) && rec.result == Classify(rec.dice) && rec.id < rounds
  }

  /** History newest-first: ids strictly decrease along the sequence. */
  predicate NewestFirst(h: seq<GameHistory>)
  {
    forall i, j :: 0 <= i < j < |h| ==> h[i].id > h[j].id
  }

  /** What every reachable session satisfies. While rolling, the live side
      is the snapshot side, since side clicks are ignored mid-roll. */
  predicate Valid(s: Session)
  {
    && s.balance >= 0
    && s.bet >= 0
    && |s.history| <= HISTORY_CAP
    && (forall i :: 0 <= i < |s.history| ==> GoodRecord(s.history[i], s.rounds))
    && NewestFirst(s.history)
    && (s.phase.Rolling? ==> s.phase.stake >= 0 && s.side == Some(s.phase.side))
  }

  /** The opening session is valid, idle, and not offered a loan. */
  lemma InitValid()
    ensures Valid(Init())
    ensures Init().phase == Idle && !LoanOffered(Init())
    ensures Init().balance == INITIAL_BALANCE && Init().bet == DEFAULT_BET
    ensures Init().dice == [1, 1, 1] && Init().side == None
    ensures Init().history == [] && Init().notice == Greeting
  {
  }

  /** Prepending a fresh record to a valid history keeps it valid. */
  lemma RecordKeepsHistory(h: seq<GameHistory>, rec: GameHistory, rounds: nat)
    requires |h| <= HISTORY_CAP && NewestFirst(h)
    requires forall i :: 0 <= i < |h| ==> GoodRecord(h[i], rounds)
    requires rec.id == rounds && rec.sum == Sum(rec.dice) && rec.result == Classify(rec.dice)
    ensures |Record(h, rec)| <= HISTORY_CAP
    ensures NewestFirst(Record(h, rec))
    ensures forall i :: 0 <= i < |Record(h, rec)| ==> GoodRecord(Record(h, rec)[i], rounds + 1)
  {
    var r := Record(h, rec);
    forall i | 0 <= i < |r|
      ensures GoodRecord(r[i], rounds + 1)
    {
      if i > 0 {
        assert r[i] == r[1..][i - 1] == h[i - 1];
      }
    }
    forall i, j | 0 <= i < j < |r|
      ensures r[i].id > r[j].id
    {
      assert r[j] == r[1..][j - 1] == h[j - 1];
      if i > 0 {
        assert r[i] == r[1..][i - 1] == h[i - 1];
      }
    }
  }

  /** Every step keeps a session valid. */
  lemma StepKeepsValid(s: Session, a: Action)
    requires Valid(s)
    ensures Valid(Step(s, a))
  {
  }

  /** Every session reachable from a valid one is valid. */
  lemma {:induction false} RunKeepsValid(s: Session, actions: seq<Action>)
    requires Valid(s)
    ensures Valid(Run(s, actions))
    decreases |actions|
  {
    if |actions| > 0 {
      StepKeepsValid(s, actions[0]);
      RunKeepsValid(Step(s, actions[0]), actions[1..]);
    }
  }

  /** In particular every session the page can reach has a non-negative
      balance, at most ten history entries, and consistent records. */
  lemma ReachableValid(actions: seq<Action>)
    ensures Valid(Run(Init(), actions))
  {
    InitValid();
    RunKeepsValid(Init(), actions);
  }

  /** In a valid session the loan is offered exactly when the balance is
      zero and no roll is in progress. */
  lemma LoanOfferedWhenBroke(s: Session)
    requires Valid(s)
    ensures LoanOffered(s) <==> (s.balance == 0 && s.phase == Idle)
  {
  }

  /** The quick-bet guard as written is the same as "above the balance":
      an ALL-IN for exactly the balance is never refused. */
  lemma QuickBetGuard(amount: int, balance: int)
    ensures QuickBetRefused(amount, balance) <==> amount > balance
    ensures !QuickBetRefused(balance, balance)
  {
  }

  /** One whole round from an idle session: the balance ends up the stake
      higher on a win and the stake lower on a loss or a triple. */
  lemma FullRound(s: Session, d: Dice)
    requires s.phase == Idle && s.balance >= s.bet && s.side.Some?
    ensures ResolveRoll(StartRoll(s), d).balance ==
              s.balance + (if Won(Classify(d), s.side.value) then s.bet else -s.bet)
    ensures ResolveRoll(StartRoll(s), d).phase == Idle
    ensures ResolveRoll(StartRoll(s), d).side == None
  {
  }

  /** Moving the bet with ALL-IN while the dice are rolling does not change
      what the round pays: the stake snapshot is used. */
  lemma MidRollAllInIgnored(s: Session, d: Dice)
    requires s.phase.Rolling?
    ensures ResolveRoll(Step(s, AllIn), d).balance == ResolveRoll(s, d).balance
    ensures ResolveRoll(Step(s, AllIn), d).history == ResolveRoll(s, d).history
  {
  }

  /** The live bet and the stake in effect can differ: after backing XIU,
      rolling and pressing ALL-IN, the bet is the whole remaining balance
      while the round still stakes 1000. */
  lemma StakeCanDrift()
    ensures Run(Init(), [ChooseSide(XIU), Roll, AllIn]).phase == Rolling(1000, XIU)
    ensures Run(Init(), [ChooseSide(XIU), Roll, AllIn]).bet == 4000
  {
  }

  /** Backing XIU with 1000 from 5000 and throwing 2-3-1 wins: 6000 and a
      XIU record summing to 6. */
  lemma LowWinScenario()
    ensures var s := ResolveRoll(StartRoll(SelectSide(Init(), XIU)), [2, 3, 1]);
            && s.balance == 6000
            && s.history[0].dice == [2, 3, 1]
            && s.history[0].sum == 6
            && s.history[0].result == Band(XIU)
            && s.notice == Salty(WIN)
  {
  }

  /** Backing TAI with 1000 from 5000 and throwing 5-5-5 loses to BAO even
      though 15 lies in TAI's band: 4000 left. */
  lemma TripleScenario()
    ensures var s := ResolveRoll(StartRoll(SelectSide(Init(), TAI)), [5, 5, 5]);
            && s.balance == 4000
            && s.history[0].result == BAO
            && s.notice == Salty(TRIPLE)
  {
  }

  /** With 300 left, the 500 preset is refused and the bet stays; ALL-IN
      for 300 is accepted. */
  lemma QuickBetScenario()
    ensures var s := Init().(balance := 300);
            && Step(s, Preset(500)).bet == DEFAULT_BET
            && Step(s, Preset(500)).notice == OverBalance
            && Step(s, AllIn).bet == 300
  {
  }

  /** A broke, idle session is offered the loan and taking it leaves 500. */
  lemma LoanScenario()
    ensures var s := Init().(balance := 0);
            && LoanOffered(s)
            && Step(s, TakeLoan).balance == 500
  {
  }
}
