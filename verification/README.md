# Tài Xỉu betting engine — a Dafny model

Tài Xỉu is a dice game played over and under a line. A player starts with 5000 units of virtual money, called Lá Mít. They pick a stake (1000 by default) and back one of two sides: TAI (high, sums 11–18) or XIU (low, sums 3–10). Then they roll three dice. The stake is taken as soon as the roll starts. When the dice land, the round is judged as follows:

- Three equal faces are BAO (a triple). BAO loses whatever side was backed.
- Otherwise a sum of 3–10 is XIU and any other sum is TAI.
- A win pays back twice the stake.
- Every round is prepended to a history that keeps the newest ten rounds.
- The side is cleared after every round.

A player who runs out of money can take a loan of 500.

The engine lives inside a single React component. This project models it as an immutable `Session` record with one pure transition function per player intent:

- `types.dfy` (module `Types`): die faces (`DiceValue`, 1..6), three-dice throws, the two sides, a round's result (a side or BAO), the history record, the dice sum (a left fold, as `reduce` computes it) and the band labels.
- `rules.dfy` (module `Rules`): how a landed throw is judged. This covers the result (`Classify`), whether the backed side won (`Won`), the credit (`Payout`) and which message pool the notification is drawn from (`Message`).
- `game.dfy` (module `Game`): the `Session` and the operations. These are `StartRoll`, `ResolveRoll`, `QuickSetBet`, `SetBetAmount`, `SelectSide` and `RequestLoan`, plus the capped history push `Record`. A roll in progress is the phase `Rolling(stake, side)`. It holds the stake and side that were in effect when the roll started. The page's timer callback captured those same values, and the ALL-IN button stays enabled mid-roll, so the live bet can drift away from the stake.
- `play.dfy` (module `Play`): the page as a sequence of `Action`s. Each step honours how the page disables its controls (`Step`, `Run`). This module also proves:
  - the invariant `Valid`, which every reachable session keeps: non-negative balance and bet, at most ten records, each record's sum and result agreeing with its dice, ids newest-first, and the live side equal to the snapshot side while rolling;
  - the balance over one whole round;
  - the worked scenarios.

The notification is modelled only as its category (`Notice`: fixed lines, or a draw from the WIN, LOSE, TRIPLE or POOR pool). A round counter `rounds` supplies the record ids in place of timestamps.

## Model

| member | source | states |
|---|---|---|
| Types.SumBounds | types.ts:1 | any sequence of die faces sums to between its length and six times its length |
| Types.DiceSum | App.tsx:109 | the folded sum of a throw is the sum of its three faces and lies in 3..18 |
| Types.TwoSides | types.ts:3-6 | there are exactly two sides, TAI and XIU, and they differ |
| Types.BandsPartition | types.ts:4-5 | the labelled bands TAI 11-18 and XIU 3-10 are disjoint, cover every sum in 3..18 and nothing outside it |
| Rules.Classify | App.tsx:109-120 | the result is BAO exactly when the three dice are equal; a side result always lies in that side's labelled band |
| Rules.ClassifyByBand | App.tsx:114-120 | a throw's result is a given side if and only if it is not a triple and its sum lies in that side's band |
| Rules.MirrorSwapsSides | App.tsx:114-120 | turning every die upside down is its own inverse, keeps BAO and swaps TAI with XIU |
| Rules.MirrorAllSize | App.tsx:114-120 | mirroring a set of throws is one-to-one, so the image has as many throws as the set |
| Rules.MirrorThrows | App.tsx:114-120 | the mirror image of the throws won by one side is exactly the set of throws won by the other |
| Rules.EqualCounts | App.tsx:114-120 | among the 216 throws, TAI and XIU are each the result of equally many |
| Rules.Won | App.tsx:123-135 | BAO never wins; otherwise the backed side wins exactly when the result is that side |
| Rules.TripleAlwaysLoses | App.tsx:126-128 | a triple loses for either side and draws from the BAO message pool |
| Rules.Payout | App.tsx:137-141 | a win credits the stake back plus an equal profit; a loss credits nothing |
| Rules.Message | App.tsx:126-135 | the message pool is BAO's exactly for a triple, WIN's exactly for a non-triple win, and never the loan pool |
| Game.Record | App.tsx:150 | the new record is first, the length is the old length plus one capped at ten, and the rest is the old history's prefix in order |
| Game.StartRoll | App.tsx:73-89 | too little balance is refused before the side is checked; a missing side is refused next; a refusal changes only the notification; a success debits exactly the bet, leaves the balance non-negative and starts rolling with the bet and side as snapshot |
| Game.ResolveRoll | App.tsx:97-153 | the round ends idle with no side; the balance rises by twice the snapshot stake exactly when the snapshot side won; the new record is first with the throw, its three-face sum and its result; the older records keep their order under the cap of ten; the notification pool is BAO exactly for a triple and WIN exactly for a win |
| Game.QuickSetBet | App.tsx:161-167 | an amount above the balance is refused with a notification and leaves the bet; any other amount, including exactly the balance, becomes the bet |
| Game.SetBetAmount | App.tsx:299 | the bet becomes the entered number when it is non-negative, and 0 when it is negative or does not parse; nothing else changes |
| Game.SelectSide | App.tsx:248-269 | a side click is ignored while rolling and otherwise selects that side and changes nothing else |
| Game.RequestLoan | App.tsx:155-159 | the loan adds exactly 500, shows a line from the loan pool and changes nothing else |
| Play.InitValid | App.tsx:41-51 | the opening session has balance 5000, bet 1000, dice 1-1-1, no side, empty history, the greeting and no roll; it satisfies the invariant and is not offered a loan |
| Play.RecordKeepsHistory | App.tsx:144-150 | pushing a fresh record keeps the history within ten entries, newest-first and consistent with its dice |
| Play.StepKeepsValid | App.tsx:249-322 | every action preserves the invariant, with each action guarded as the page guards it: side buttons, the bet field, the presets and the roll button do nothing while rolling; ALL-IN stays live; the timer's `Land` fires only while rolling; the loan is admitted at any time |
| Play.RunKeepsValid | App.tsx:45-50 | any sequence of steps from a valid session ends in a valid session |
| Play.ReachableValid | App.tsx:41-51 | every session reachable from the opening one has a non-negative balance, at most ten consistent records, and the snapshot side while rolling |
| Play.LoanOfferedWhenBroke | App.tsx:66-71 | in a reachable session the loan is offered exactly when the balance is zero and no roll is in progress |
| Play.QuickBetGuard | App.tsx:162 | the guard "above the balance and not equal to it" is the same as "above the balance", so ALL-IN is never refused |
| Play.FullRound | App.tsx:85-141 | across a whole round the balance rises by the stake on a win and falls by the stake on a loss or a triple |
| Play.MidRollAllInIgnored | App.tsx:303 | pressing ALL-IN while the dice roll changes neither the round's payout nor its record |
| Play.StakeCanDrift | App.tsx:303 | after backing XIU, rolling and pressing ALL-IN, the live bet is 4000 while the stake in effect is still 1000 |
| Play.LowWinScenario | App.tsx:108-150 | backing XIU for 1000 from 5000 and throwing 2-3-1 ends at 6000 with a XIU record summing to 6 |
| Play.TripleScenario | App.tsx:114-141 | backing TAI for 1000 from 5000 and throwing 5-5-5 ends at 4000 with a BAO record |
| Play.QuickBetScenario | App.tsx:161-167 | with 300 left, the 500 preset is refused and the bet is kept, while ALL-IN sets the bet to 300 |
| Play.LoanScenario | App.tsx:155-159 | a broke idle session is offered the loan, and taking it leaves 500 |

## Left out

- Rendering (components/Die.tsx, the JSX, the styling) is presentation only.
- The 100 ms interval that shows random faces while rolling never touches the balance or history. `Session.dice` keeps the last landed throw during a roll.
- The 2.5 s roll timer becomes the `Land(dice)` action, which fires only while a roll is in progress. The 1 s delay before the loan offer and the `showLoanModal` flag are not modelled. `Play.Step` allows `TakeLoan` at any time, a superset of when the offer shows. (The offer's timer can fire after a zero-stake roll has started.)
- `Math.random` is replaced by dice passed in as parameters. The message texts and the random pick from each pool are replaced by the pool's category.
- `Date.now()` record ids are replaced by the round counter `rounds`.
- `parseInt` is taken as already applied: `SetBetAmount` receives `Some(n)` or `None` for text that does not parse. Non-integer, huge and floating-point input is not modelled, and neither is `toLocaleString`.
- Game.StartRoll: requires an idle session. The roll button is disabled while rolling (App.tsx:322), and a second pending timer cannot be represented.
- Game.ResolveRoll: requires a roll in progress. It is reached only from the timer that a successful roll schedules (App.tsx:97-105).
- Balance and bet are JavaScript doubles (App.tsx:45, 49, 89, 140, 156). The model's integer arithmetic agrees with them only below 2^53. Beyond that the source's additions and subtractions can round, while the model stays exact. For example, with a balance of 5000·2^41 = 10995116277760000, a roll staking 1 debits `prev - 1`, which rounds back to 10995116277760000 in the source, while the model gives 10995116277759999.
- Play.FullRound: the exact change of plus or minus the stake holds for the model's integers. For the source it holds only while the balance stays below 2^53, and the same limit applies to the balance clause of Game.ResolveRoll.
- React's state batching and functional updates are modelled as one atomic transition per handler.
- The loan offer condition is `balance <= 0` and not rolling (App.tsx:68), modelled as `LoanOffered`. On valid sessions it is the same as a balance of exactly 0 and not rolling (`Play.LoanOfferedWhenBroke`).
