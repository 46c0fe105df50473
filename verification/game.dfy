/** The betting session and the operations the player's intents trigger.
    Every operation is a pure function from one session to the next; the
    notification shown to the player travels in the session as a category. */
module Game {
  import opened Types
  import opened Rules

  const INITIAL_BALANCE: int := 5000
  const DEFAULT_BET: int := 1000
  const LOAN_GRANT: int := 500
  const HISTORY_CAP: nat := 10
  /** The amounts offered by the quick-bet buttons. */
  const PRESETS: seq<int> := [100, 500, 1000, 5000]

  /** Whether dice are in the air. A roll in progress remembers the stake
      and side in effect when it started, as the pending timer callback
      captured them. */
  datatype Phase = Idle | Rolling(stake: int, side: BetOption)

  /** The notification in view: a fixed line, or a line drawn from one of
      the salty message pools. */
  datatype Notice = Greeting | NoFunds | NoSide | Shaking | OverBalance | Salty(pool: Category)

  datatype Session = Session(
    balance: int,
    dice: Dice,
    phase: Phase,
    side: Option<BetOption>,
    bet: int,
    history: seq<GameHistory>,
    notice: Notice,
    rounds: nat)

  /** The session as the page opens it. */
  function Init(): Session
  {
    Session(INITIAL_BALANCE, [1, 1, 1], Idle, None, DEFAULT_BET, [], Greeting, 0)
  }

  function Min(a: int, b: int): int
  {
    if a <= b then a else b
  }

  /** Prepends a record and keeps only the newest HISTORY_CAP entries. */
  function Record(h: seq<GameHistory>, rec: GameHistory): (r: seq<GameHistory>)
    ensures |r| == Min(|h| + 1, HISTORY_CAP)
    ensures r[0] == rec
    ensures r[1..] == h[..|r| - 1]
  {
    var full := [rec] + h;
    if |full| <= HISTORY_CAP then full else full[..HISTORY_CAP]
  }

  /** Pressing the roll button. The balance is checked before the side;
      a refusal changes only the notification. On success the stake is
      debited at once and the roll starts with the stake and side snapshot. */
  function StartRoll(s: Session): (r: Session)
    requires s.phase == Idle
    ensures s.balance < s.bet ==> r == s.(notice := NoFunds)
    ensures s.balance >= s.bet && s.side == None ==> r == s.(notice := NoSide)
    ensures r.phase.Rolling? <==> (s.balance >= s.bet && s.side.Some?)
    ensures r.phase.Rolling? ==>
              && r.phase == Rolling(s.bet, s.side.value)
              && r.balance == s.balance - s.bet
              && r.balance >= 0
              && r.notice == Shaking
              && r == s.(balance := r.balance, phase := r.phase, notice := Shaking)
  {
    if s.balance < s.bet then
      s.(notice := NoFunds)
    else if s.side.None? then
      s.(notice := NoSide)
    else
      s.(phase := Rolling(s.bet, s.side.value), notice := Shaking, balance := s.balance - s.bet)
  }

  /** The roll ends with the given dice: the round is judged against the
      snapshot side, the snapshot stake is paid back twice on a win, the
      round is recorded newest-first, the side is cleared and the roll ends. */
  function ResolveRoll(s: Session, d: Dice): (r: Session)
    requires s.phase.Rolling?
    ensures r.phase == Idle && r.side == None
    ensures r.dice == d
    ensures r.bet == s.bet
    ensures r.balance == s.balance +
              (if Classify(d) == Band(s.phase.side) then 2 * s.phase.stake else 0)
    ensures r.notice == Salty(TRIPLE) <==> (d[0] == d[1] && d[1] == d[2])
    ensures r.notice == Salty(WIN) <==> Classify(d) == Band(s.phase.side)
    ensures r.notice.Salty? && r.notice.pool != POOR
    ensures |r.history| == Min(|s.history| + 1, HISTORY_CAP)
    ensures r.history[0].dice == d
    ensures r.history[0].sum == d[0] as int + d[1] as int + d[2] as int
    ensures r.history[0].result == Classify(d)
    ensures r.history[0].id == s.rounds && r.rounds == s.rounds + 1
    ensures r.history[1..] == s.history[..|r.history| - 1]
  {
    var stake := s.phase.stake;
    var result := Classify(d);
    var won := Won(result, s.phase.side);
    DiceSum(d);
    var rec := GameHistory(s.rounds, d, Sum(d), result);
    s.(balance := s.balance + Payout(stake, won),
       dice := d,
       phase := Idle,
       side := None,
       history := Record(s.history, rec),
       notice := Salty(Message(result, won)),
       rounds := s.rounds + 1)
  }

  /** Whether a quick bet is refused, with the guard exactly as the source
      writes it: above the balance and not equal to it. */
  predicate QuickBetRefused(amount: int, balance: int)
  {
    amount > balance && amount != balance
  }

  /** A quick-bet or ALL-IN button: an amount the balance cannot cover is
      refused with a notification and the bet stays; any other becomes the bet. */
  function QuickSetBet(s: Session, amount: int): (r: Session)
    ensures amount > s.balance ==> r == s.(notice := OverBalance)
    ensures amount <= s.balance ==> r == s.(bet := amount)
  {
    if QuickBetRefused(amount, s.balance) then s.(notice := OverBalance)
    else s.(bet := amount)
  }

  /** Editing the bet field: the parsed number, or 0 when the text does not
      parse, clamped below at 0. */
  function SetBetAmount(s: Session, parsed: Option<int>): (r: Session)
    ensures r.bet >= 0
    ensures parsed.Some? && parsed.value >= 0 ==> r.bet == parsed.value
    ensures (parsed.None? || parsed.value <= 0) ==> r.bet == 0
    ensures r == s.(bet := r.bet)
  {
    var n := match parsed case Some(v) => v case None => 0;
    s.(bet := if 0 <= n then n else 0)
  }

  /** A side button: ignored while dice are rolling. */
  function SelectSide(s: Session, side: BetOption): (r: Session)
    ensures s.phase.Rolling? ==> r == s
    ensures s.phase == Idle ==> r.side == Some(side) && r == s.(side := Some(side))
  {
    if s.phase.Rolling? then s else s.(side := Some(side))
  }

  /** The emergency loan: a fixed grant and a line from the POOR pool. The
      operation itself checks nothing. */
  function RequestLoan(s: Session): (r: Session)
    ensures r.balance - s.balance == LOAN_GRANT
    ensures r.notice == Salty(POOR)
    ensures r == s.(balance := r.balance, notice := r.notice)
  {
    s.(balance := s.balance + LOAN_GRANT, notice := Salty(POOR))
  }

  /** When the loan offer appears: out of money and not rolling. */
  predicate LoanOffered(s: Session)
  {
    s.balance <= 0 && s.phase == Idle
  }
}
