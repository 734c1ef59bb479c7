# Lottery round settlement, modelled in Dafny

This project models the round-settlement engine of a small lottery game. The engine is the React
component `LotteryGame` in `src/Components/Lotto.tsx`. A player with a name buys tickets
for 500 coins each, paid to a single operator account. Each ticket holds five distinct numbers in
[1, 39]. Buying locks the round. The draw then picks five winning numbers and scores the first
`numTicketsToBuy` tickets the player holds. It pays each ticket's prize from the table
(2/3/4/5 hits: 100/500/1000/5000 coins), and the operator keeps a 10% skim of each prize. It tallies
the tickets by hit count and reopens the round. A reset restores the initial records.

Files, one module each:

- `numbers.dfy` (`Numbers`): the rejection-sampling number generator. `Distinct` is its
  specification (the candidates in draw order, repeats dropped). `GenerateRandomNumbers` is the
  loop.
- `prizes.dfy` (`Prizes`): the prize table `CalculatePrize` and the hit count of a ticket
  (`Matches`, `Hits`).
- `records.dfy` (`Records`): tickets, player, operator, round results, the whole game state, the
  initial records, and the invariant `Valid` that every reachable state keeps.
- `round.dfy` (`Round`): minting a batch of tickets and scoring a list of tickets. It has the
  specification functions (`Mint`, `TotalPrize`, `OperatorDelta`, `BucketCount`, `Buckets`) and the
  two loops that compute them: `MintTickets` (the `Array.from` of a purchase) and
  `ScoreTickets` (the `forEach` of a draw).
- `settlement.dfy` (`Settlement`): purchase, draw and reset as transitions of the game state, with
  the lemmas about what they settle.
- `lotto.dfy` (`Lotto`): the class `LotteryGame`. It holds the component's six state variables as
  fields. Its handler methods are proved to perform the `Settlement` transitions.

Randomness is injected. Each call of the generator receives the sequence of candidates that
`Math.random` would have produced (`rolls`). A purchase receives one such stream per ticket, and a
draw receives one for the winning numbers. The `alert` calls become returned error values.

In these places the code's behaviour may be unexpected; the model follows the code:

- A purchase reports two kinds of refusal. An empty name gives `NameMissing`. A locked round and an
  insufficient balance share one alert in the code, so both give `CannotPurchase`.
- A ticket count of 0 is accepted. The code buys no tickets and still locks the round.
- The round's `operatorProfit` is the operator balance read when the draw starts, minus the round's
  prizes. The code reads the balance the component held on entry, because the queued balance
  updates take effect only after the handler returns.
- A ticket with exactly one hit pays nothing and is tallied in no bucket. The code does
  `results[1]++` on a key that does not exist. The model leaves the buckets unchanged instead of
  creating a key holding NaN.

## Model

| member | source | states |
|---|---|---|
| Numbers.Distinct | src/Components/Lotto.tsx:183-188 | keeping each candidate not already held gives exactly the candidates of the stream, with no repeats |
| Numbers.FirstDistinctIsDraw | src/Components/Lotto.tsx:181-190 | the first `count` distinct candidates of a stream in [1,39] are `count` pairwise-distinct numbers in [1,39] |
| Numbers.SuppliesMeansEnoughCandidates | src/Components/Lotto.tsx:183-184 | the generator's supply condition means the source yields values in [1,39], with at least `count` different ones |
| Numbers.GenerateRandomNumbers | src/Components/Lotto.tsx:181-190 | returns exactly `count` pairwise-distinct numbers in [1,39]: the first `count` different candidates, in draw order (not sorted) |
| Prizes.CalculatePrize | src/Components/Lotto.tsx:291-302 | the prize is positive exactly for 2..5 hits and at most 5000; the operator share is between 0 and the prize and is exactly 10% of it (`prize * 10 / 100` leaves no remainder) |
| Prizes.PrizeTableEntries | src/Components/Lotto.tsx:292-300 | 2/3/4/5 hits pay 100/500/1000/5000 with skims 10/50/100/500; every other hit count pays 0 |
| Prizes.Matches | src/Components/Lotto.tsx:258 | the filtered ticket numbers are those also drawn, never more than the ticket has |
| Prizes.Hits | src/Components/Lotto.tsx:258 | the hit count never exceeds the ticket's length |
| Prizes.HitsIsIntersection | src/Components/Lotto.tsx:258 | for a ticket without repeats, hits = size of the intersection of ticket numbers and drawn numbers |
| Round.NewTicket | src/Components/Lotto.tsx:204-208 | a minted ticket has five distinct numbers in [1,39], is a player ticket and carries the given id |
| Round.MintedBatch | src/Components/Lotto.tsx:204-208 | a batch has one well-formed ticket per stream, and its ids continue the numbering of the tickets held (`len+1 .. len+n`) |
| Round.MintTickets | src/Components/Lotto.tsx:204-208 | builds `n` tickets; ticket `i` has the first five distinct candidates of its stream, `isPlayerTicket = true` and id `held + i + 1` |
| Round.Mint | src/Components/Lotto.tsx:204-208 | the `Array.from` batch has one ticket per stream; ticket `i` is a well-formed player ticket with id `held + i + 1` |
| Round.TotalPrize | src/Components/Lotto.tsx:259-262 | the round's prize total is between 0 and 5000 per ticket |
| Round.OperatorDelta | src/Components/Lotto.tsx:270-273 | the queued operator updates (`+ skim - prize` per ticket) never raise the operator balance and lower it by at most 4500 per ticket |
| Round.BucketCount | src/Components/Lotto.tsx:247-261 | the number of tickets with a given hit count is at most the number of tickets |
| Round.Buckets | src/Components/Lotto.tsx:247-261 | the results map has exactly the keys 0, 2, 3, 4, 5, and no bucket counts more tickets than were scored |
| Round.Tally | src/Components/Lotto.tsx:261 | `results[hits]++` keeps the keys, adds one to the bucket `hits` when it exists, and leaves every other bucket as it was |
| Round.OperatorPaysNineTenths | src/Components/Lotto.tsx:270-273 | the operator's balance change is the sum of `skim - prize`; it equals -9/10 of the prizes paid, and the skim is 1/10 of them |
| Round.BucketsCoverTickets | src/Components/Lotto.tsx:247-261 | for five-number tickets, the buckets 0,2,3,4,5 plus the untallied 1-hit tickets add up to the number of tickets |
| Round.ScoreTickets | src/Components/Lotto.tsx:257-274 | the `forEach` loop yields per-bucket counts, the prize total, a player delta equal to that total, and the operator delta `sum(skim - prize)` |
| Settlement.Buy | src/Components/Lotto.tsx:198-229 | NameMissing exactly when the name is empty; success exactly when the name is set, the round is open and the balance covers `500*n`; every refusal leaves the state unchanged |
| Settlement.PurchaseSettles | src/Components/Lotto.tsx:203-222 | a purchase moves `500*n` coins from player to operator (their sum is unchanged); it appends the same batch of `n` well-formed player tickets, ids `len+1..len+n`, to both lists; it locks the round; name, id, totalWinnings, the draw fields and the ticket count are unchanged |
| Settlement.BuyPreservesValid | src/Components/Lotto.tsx:204-220 | a purchase keeps every ticket well formed and the player's ticket ids sequential |
| Settlement.NoSecondPurchase | src/Components/Lotto.tsx:200-224 | after a successful purchase, a second one is refused with CannotPurchase and changes nothing |
| Settlement.Draw | src/Components/Lotto.tsx:237-283 | RoundOpen exactly when the round is open; success exactly when it is locked and at least `numTicketsToBuy` tickets are held; every refusal leaves the state unchanged |
| Settlement.DrawSettles | src/Components/Lotto.tsx:244-279 | the winning numbers are a valid draw; player balance and totalWinnings both rise by the prizes of the first `n` tickets; the operator balance changes by -9/10 of them; operatorProfit = entry operator balance minus prizes; the buckets count the tickets per hit count; the round reopens, and nothing else changes (both ticket lists, name, ids, ticket count) |
| Settlement.DrawBucketsCoverRound | src/Components/Lotto.tsx:247-261 | in a valid state, buckets 0,2,3,4,5 plus the 1-hit tickets add up to `numTicketsToBuy` |
| Settlement.DrawPreservesValid | src/Components/Lotto.tsx:244-245 | a draw keeps the state valid; the drawn numbers are five distinct numbers in [1,39] |
| Settlement.RoundCycle | src/Components/Lotto.tsx:198-283 | a successful purchase always permits the draw; after it the round is open and the coins of player and operator together grew by 1/10 of the prizes; with no earlier tickets, the scored tickets are exactly the bought batch, and the prize total and the buckets are that batch's |
| Settlement.Reset | src/Components/Lotto.tsx:320-327 | the reset state is valid and open for purchase |
| Settlement.ResetIdempotent | src/Components/Lotto.tsx:320-327 | resetting twice gives the same state as resetting once: the initial records |
| Records.InitialGameValid | src/Components/Lotto.tsx:27-46 | the initial state is valid, open for purchase and holds no tickets |
| Lotto.LotteryGame.constructor | src/Components/Lotto.tsx:41-46 | every field starts at its initial value |
| Lotto.LotteryGame.UpdatePlayerName | src/Components/Lotto.tsx:310-312 | only the player's name changes |
| Lotto.LotteryGame.SetNumTicketsToBuy | src/Components/Lotto.tsx:45 | only the ticket count changes |
| Lotto.LotteryGame.BuyTickets | src/Components/Lotto.tsx:198-229 | the new fields and the outcome are those of `Settlement.Buy` on the old fields; the invariant is kept |
| Lotto.LotteryGame.StartDraw | src/Components/Lotto.tsx:237-283 | the new fields and the outcome are those of `Settlement.Draw` on the old fields; the invariant is kept |
| Lotto.LotteryGame.ResetGame | src/Components/Lotto.tsx:320-327 | the fields become the initial records, whatever they were |

## Left out

- `fetchData`, `saveDataToServer` and `checkPlayerExists` (src/Components/Lotto.tsx:63-174) are not modelled. They are asynchronous network calls. Resolving a name to a stored player (and minting a random player id) is therefore not part of this model, and so is replicating state to the server after each change (including the call inside the purchase handler).
- The invariant `Valid` holds of the states reachable from the initial state through the modelled operations. A player record loaded from the server could break it, and such loads are not modelled.
- `Math.random` is replaced by injected candidate streams. The model does not capture the uniform distribution.
- Numbers.GenerateRandomNumbers: requires its stream to hold at least `count` different candidates in [1,39]. The source loop instead keeps calling the random source until it has them, and it never ends if the source does not supply them.
- Lotto.LotteryGame.BuyTickets: requires one sufficient stream per ticket to be bought, even when the purchase is then refused. A refused purchase consumes no randomness in the source.
- Lotto.LotteryGame.StartDraw: requires a sufficient candidate stream even when the draw is refused (round open, or too few tickets held). A refused draw consumes no randomness in the source. `Settlement.Draw` has the same requirement.
- `alert` messages are returned as error values.
- Negative or fractional ticket counts are not modelled: `numTicketsToBuy` is a natural number. The code does not validate this input.
- JavaScript numbers are modelled as unbounded integers. Every value the engine computes is an integer (the 10% skim divides exactly), so no rounding is lost while every value stays below 2^53. The model does not bound balances: it does not capture the rounding of `500 * numTicketsToBuy` or of a balance update once a value exceeds 2^53.
- The NaN that `results[1]++` stores under key 1 is not reproduced. One-hit tickets are simply tallied in no bucket.
- React's rendering, effects and batching of state updates are not modelled. Each handler is one atomic transition, and the updates it queues are applied after it has read the state.
- `Player.tsx`, `Operator.tsx`, `OperatorDashboard.tsx` and `App.tsx` only render state or route. They are not part of this model.
