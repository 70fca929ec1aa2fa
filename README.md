# Over/under betting backend: ledger, room registry and feed assembly

This project models three sequential cores of a small betting backend and proves their properties in Dafny.

- **Point ledger** (module `Bets`, `bets.dfy`). Users stake rep points on whether a final value lands over or under a bet's line.
  - Placing a bet validates the request. It then runs one transaction: a guarded debit (`rep_points -= amount` only where `rep_points >= amount`) followed by the insert of a `placed` ticket.
  - Settling a bet runs one transaction. It resolves every still-`placed` ticket of that bet to `won` or `lost`, and each winner is credited `floor(amount * 2)`.
  - The database is a `Ledger` object with three fields: a balance per user, a line per bet, and the ticket table as a sequence. A ticket's serial id is its position plus one. Each transaction is one atomic method call.
  - The pure function `AfterSettlement` describes the whole store after a settlement. The settlement loop is proved equal to it, and the lemmas state what it does.
- **Room registry** (module `Rooms`, `rooms.dfy`). A process-wide map from room id to the set of connections in the room.
  - It is modelled as a `RoomRegistry` object with methods for create, delete, join, leave, broadcast and the socket's event wiring.
  - The functions `Joined` and `Left` describe the map after a join or a leave. The lemmas about them state the registry's cleanup invariant.
- **Feed assembly** (module `SportsData`, `feeds.dfy`). Betting feeds are built from the college football data service.
  - Each week's two HTTP requests become an abstract outcome per (season, week).
  - The week loop with its `break`/`continue` is a method, proved equal to the recursive function `FeedsFrom`. Lemmas state the filter, the join to the first line, and how the loop stops or skips a week.

`wrappers.dfy` holds the `Option` and `Result` types.

Numbers: a bet line is a `decimal(10,2)` and a final value is a JavaScript number. Both are modelled as `real`, which is exact, so floating-point rounding is not modelled. `Number(...)` coercion is abstracted: a final value arrives as `Num`, which is `NaN` or `Finite(v)`. Stakes and balances are integers.

The code behaves as follows in places a reader might not expect:

- An unparsable `finalValue` is not rejected. `Number(...)` makes it `NaN`, so every open ticket of the bet loses (`ComputeWin` is false for `NaN`).
- Joining a room that does not exist creates it. Nothing refuses the join.
- Deleting an unknown room fails with status 500, because the handler's own `catch` turns the 404 into a 500. Delete does not disconnect the room's members.
- No ticket ever becomes `void`. No owner or balance check gates any message: every message goes to the other open members.

## Model

| member | source | states |
|---|---|---|
| `Bets.HttpStatus` | src/controller/betController.ts:31-58 | only an unknown bet answers 404; every other refusal, including insufficient points, answers 400 |
| `Bets.ToInt` | src/controller/betController.ts:11-13 | the result is the floor: the greatest integer not above the input |
| `Bets.ComputeWin` | src/controller/betController.ts:15-17 | `over` wins iff the final value is above the line, `under` iff below; a tie and a NaN final value lose on both sides |
| `Bets.ComputePayout` | src/controller/betController.ts:9-21 | the payout is `floor(amount * odds)`; at the fixed multiplier 2 it is exactly twice the stake |
| `Bets.ParseSide` | src/controller/betController.ts:38-40 | only "over" and "under" are accepted, and each parses to the side of that name |
| `Bets.ValidatePlacement` | src/controller/betController.ts:31-47 | accepted iff the bet id is a number, userId is truthy, the amount is positive, the side is over/under and the bet exists; otherwise exactly the first failing check in the controller's order is the refusal: a NaN bet id, then a falsy userId, amount or side, then a negative amount, then an unknown side, and only a request valid in every field gets "Bet not found"; an accepted placement carries the request's own fields |
| `Bets.PlacedOf` | src/controller/betController.ts:104-112 | the selected rows are exactly this bet's tickets still `placed`, in table order, each once |
| `Bets.SettleAllClosedForm` | src/controller/betController.ts:116-140 | running the loop over distinct positions resolves exactly those tickets and credits each user the payouts of their winning ones |
| `Bets.WinningsOverPlaced` | src/controller/betController.ts:104-140 | the loop's credit to a user equals the reference sum of payouts over that user's winning open tickets of the bet |
| `Bets.WinningsAsSum` | src/controller/betController.ts:116-126 | over positions visited once each, a user's credit from the loop is a sum over the set of visited positions, whatever order they are visited in |
| `Bets.AnyOrderSettles` | src/controller/betController.ts:104-140 | the selected rows come back in no guaranteed order; visiting the bet's open tickets in any order, each once, leaves exactly the store that settlement in table order leaves |
| `Bets.SettleStep` | src/controller/betController.ts:117-139 | one row of the loop resolves only that ticket; its owner, if the user exists, gains the payout exactly when the ticket wins; no other balance, ticket or line changes |
| `Bets.SettleAll` | src/controller/betController.ts:116-140 | the loop over any selection keeps the number of tickets, the bet lines and the set of users |
| `Bets.AfterSettlement` | src/controller/betController.ts:104-140 | settlement keeps the number of tickets, the bet lines and the set of users |
| `Bets.SettlementResolves` | src/controller/betController.ts:104-140 | settlement changes only this bet's `placed` tickets, each to its resolved status with its other fields unchanged; other bets' tickets and settled tickets are untouched |
| `Bets.SettlementLeavesNoPlaced` | src/controller/betController.ts:116-140 | after settlement no ticket of the bet is `placed`, and a formerly open ticket is `won` exactly when it wins |
| `Bets.SettlementCredits` | src/controller/betController.ts:119-126 | every existing user's balance grows by exactly the payouts of their winning tickets; losers' balances do not change; no user is added |
| `Bets.NothingPlacedSelectsNothing` | src/controller/betController.ts:104-114 | with no open ticket of the bet the selection is empty, which is the early return |
| `Bets.SettlementIdempotent` | src/controller/betController.ts:104-114 | settling the same bet again, with any final value, changes nothing |
| `Bets.UserWinningsNonNegative` | src/controller/betController.ts:119-126 | with positive stakes a user's total credit from one settlement is never negative |
| `Bets.SettlementKeepsValid` | src/controller/betController.ts:116-140 | settlement keeps every balance non-negative and every stake positive |
| `Bets.Ledger.constructor` | src/db/schema.ts:4-22 | a ledger starts with the given non-negative balances and bet lines and no tickets |
| `Bets.Ledger.PlaceSingleBet` | src/controller/betController.ts:23-80 | a refused request changes nothing; validation errors come first; the debit applies only when the user exists and the balance covers the stake, and otherwise the answer is "Insufficient rep_points"; success appends one `placed` ticket with the request's fields, lowers only that user's balance by exactly the stake, returns the new serial id, and keeps all balances non-negative |
| `Bets.Ledger.SettleSingleBet` | src/controller/betController.ts:82-148 | a NaN bet id, a missing final value and an unknown bet are refused in that order with no change; otherwise the new store is `AfterSettlement` of the old one and the ledger invariant holds |
| `Bets.Ledger.ResolveTicket` | src/controller/betController.ts:117-139 | one iteration of the settlement loop: the ticket becomes `won` and its owner (if that user exists) is credited the payout, or it becomes `lost` and no balance changes; the ledger invariant is kept |
| `Bets.SingleTicketSettles` | src/controller/betController.ts:104-140 | when the only ticket is open on the bet, settlement is exactly one iteration of the loop on it |
| `Bets.InsufficientScenario` | src/controller/betController.ts:50-59 | from a balance of 500 a stake of 600 is refused as "Insufficient rep_points" and the balance stays 500 |
| `Bets.WinScenario` | src/controller/betController.ts:50-140 | from 1000 a stake of 200 on over is ticket 1; settling it at 15 against a line of 10.5 succeeds, marks the ticket `won` and leaves 1200 |
| `Rooms.Joined` | src/controller/roomController.ts:28-33 | joining adds the room if absent, puts the connection in it and leaves every other room unchanged |
| `Rooms.Left` | src/controller/roomController.ts:46-54 | leaving removes the connection; the room disappears exactly when it had no other member or was absent; other rooms are unchanged |
| `Rooms.JoinLeaveKeepNoEmptyRoom` | src/controller/roomController.ts:28-54 | if no room is empty, none is after a join or a leave; only creation makes an empty room |
| `Rooms.JoinThenLeave` | src/controller/roomController.ts:28-54 | a new connection that joins and leaves restores the registry, except that a room that was empty is removed |
| `Rooms.JoinIdempotent` | src/controller/roomController.ts:28-33 | adding an existing member is a no-op |
| `Rooms.FreshIdExists` | src/controller/roomController.ts:8 | some id is always free, so a fresh room id can always be chosen |
| `Rooms.RoomRegistry.constructor` | src/controller/roomController.ts:5 | the registry starts with no rooms |
| `Rooms.RoomRegistry.CreateRoom` | src/controller/roomController.ts:7-11 | maps a fresh id to an empty set and leaves every other room unchanged |
| `Rooms.RoomRegistry.DeleteRoom` | src/controller/roomController.ts:13-26 | an existing id is removed and nothing else; an absent id fails with 500 and the map is unchanged |
| `Rooms.RoomRegistry.AddClient` | src/controller/roomController.ts:28-33 | the new map is `Joined` of the old one |
| `Rooms.RoomRegistry.Broadcast` | src/controller/roomController.ts:35-44 | the recipients are exactly the room's open members other than the sender; an absent room has none; membership does not change |
| `Rooms.RoomRegistry.RemoveClient` | src/controller/roomController.ts:46-54 | the new map is `Left` of the old one, so afterwards the room is absent or non-empty |
| `Rooms.RoomRegistry.RoomSocket` | src/controller/roomController.ts:56-65 | open joins, a message goes to the room's other open members without changing membership, close leaves; all use the socket's room id |
| `SportsData.GetCurrentSeason` | src/services/sportsDataService.ts:182-195 | the season is always 2025, on the normal path and on the fallback |
| `SportsData.IsSeasonAvailable` | src/services/sportsDataService.ts:246-268 | false exactly on a 404 response; true on success and on any other error |
| `SportsData.LinesOf` | src/services/sportsDataService.ts:106-124 | a failed lines request gives an empty list of lines |
| `SportsData.LinesForGame` | src/services/sportsDataService.ts:135 | every kept line quotes the game, and the list is empty iff no line quotes it |
| `SportsData.PrimaryLine` | src/services/sportsDataService.ts:135-136 | there is no primary line iff no line quotes the game; a primary line quotes the game |
| `SportsData.PrimaryLineIsFirst` | src/services/sportsDataService.ts:135-136 | the primary line is the earliest line in list order whose game id matches |
| `SportsData.UpdatedStamp` | src/services/sportsDataService.ts:154 | the stamp is the primary line's `updated` when non-empty, otherwise `now` |
| `SportsData.MakeFeed` | src/services/sportsDataService.ts:138-155 | the feed copies the game's identity, teams, date and scores; its spread, over/under and moneylines are the primary line's, or absent with no primary line; its stamp is `UpdatedStamp`; a game with all required fields gives a complete feed |
| `SportsData.WeekFeeds` | src/services/sportsDataService.ts:127-158 | a week yields at most one feed per game, and every feed has all its required fields truthy |
| `SportsData.WeekFeedsAreValidGames` | src/services/sportsDataService.ts:127-158 | a week's feeds are its games with all required fields, in game order, each made into exactly one feed |
| `SportsData.WeekFeedOrigin` | src/services/sportsDataService.ts:129-133 | every feed comes from a game of that week whose required fields are all truthy |
| `SportsData.FeedJoinsFirstLine` | src/services/sportsDataService.ts:135-154 | spread, over/under and both moneylines come from the first matching line, and so does the stamp when that line's `updated` is non-empty |
| `SportsData.FeedWithoutLine` | src/services/sportsDataService.ts:150-154 | a game no line quotes has no line data and is stamped `now` |
| `SportsData.FailedLinesKeepGames` | src/services/sportsDataService.ts:106-124 | after a failed lines request the week still yields a feed per valid game, each with no spread, over/under or moneylines and stamped `now` |
| `SportsData.AgreeingFetches` | src/services/sportsDataService.ts:80 | the feeds from a week on depend only on the outcomes of that week and later ones |
| `SportsData.StopsAtFirst404` | src/services/sportsDataService.ts:159-162 | weeks after the first week answered with 404 are never looked at |
| `SportsData.SkipsFailedWeek` | src/services/sportsDataService.ts:163-165 | a week whose games request fails with anything but 404 adds nothing, and the later weeks are still processed |
| `SportsData.StopAtWeek` | src/services/sportsDataService.ts:159-162 | at a week answered with 404 the feeds gathered so far are the whole result |
| `SportsData.SkipWeek` | src/services/sportsDataService.ts:163-165 | a week failing otherwise adds nothing before the next week's feeds |
| `SportsData.TakeWeek` | src/services/sportsDataService.ts:127-158 | a week with games adds its feeds after the earlier weeks' and before the later weeks' |
| `SportsData.AppendWeekFeeds` | src/services/sportsDataService.ts:127-158 | the game loop appends exactly the week's feeds, in game order, to the feeds gathered so far |
| `SportsData.FeedsFrom` | src/services/sportsDataService.ts:80-166 | the feeds of weeks `week` to 16 are empty past week 16, and every feed in them has all its required fields truthy |
| `SportsData.GetBettingFeeds` | src/services/sportsDataService.ts:71-177 | the loop returns `FeedsFrom` weeks 1 to 16 of season 2025: feeds in week order, then game order |

## Left out

- Transactions, isolation and concurrent placements or settlements. Each transaction is one atomic method call, and locking is the database's job.
- Failures of the database itself, which the controller reports as 500 "Failed to place bet" / "Failed to settle bet". src/db/schema.ts as shown defines neither `usersBetsTable` nor `bettingFeedsTable` (imported at src/index.ts:5), so it is probably not the complete schema; the model follows the ticket fields the controller uses. Likewise, the bet lookup at betController.ts:43 selects `betsTable.time`, a column src/db/schema.ts:11-22 does not define, so the 404 check at :47 may never be reached.
- The `settledAt` timestamp written at settlement. The clock is not modelled.
- Hono routing, `Context`, JSON body parsing and the mapping of `HTTPException` to responses. Outcomes are datatypes instead.
- `Number(...)` coercion. A route id arrives as a number or NaN (`Option`), and a body field as present or absent. Non-integer ids, fractional or string amounts, and `Number("")` are not modelled.
- The WebSocket transport (`send`, `readyState`). An open connection is membership in a given set.
- Room persistence, view counts, owner or balance checks on privileged messages, and forced disconnect on delete. The room code has none of these.
- `crypto.randomUUID`, which becomes a nondeterministic choice of a fresh id.
- The axios requests, headers, the API key and the `console` logging. `getCurrentWeek` depends on the wall clock and is not called by `getBettingFeeds`. `getTeams` is not part of this model.
- Errors thrown part-way through a week's game loop (for example, a malformed element). The model's data is well typed, so only the two requests can fail. The outer `catch` of `getBettingFeeds` is unreachable once the fetches are abstract.
- src/index.ts (route handlers, storing feeds), src/controller/userController.ts and test-api.js are not part of this model.
- `Bets.Ledger.PlaceSingleBet`: assumes the database driver reports the number of rows the guarded debit matched as `rowsAffected`. src/db/index.ts, which creates the driver, is not part of this model. If the driver reports the count under another name (mysql2 calls it `affectedRows`), the test at betController.ts:57 never fires, and an under-funded placement inserts its ticket with no debit.
- `Bets.PlacedOf`: the ticket query has no `ORDER BY`, so the database may return the rows in any order. The model's settlement visits them in table order. This loses nothing: `Bets.AnyOrderSettles` proves that any order, each row once, leaves the same store.
- `Bets.SettlementCredits`: balances and stakes are unbounded integers, but `rep_points` is an `INT` column (src/db/schema.ts:8). A credit past 2^31 - 1 is rejected by the database, and the whole settlement rolls back with 500. The model has no such bound.
- `Bets.ComputeWin`: `Num` has no infinities. `Number(finalValue)` gives ±Infinity for input such as `"Infinity"` or `1e999`, and such a value would make every `over` (or every `under`) ticket win.
- `Rooms.RoomRegistry.Broadcast`: returns the set of recipients. The order in which `send` is called on them and the message text they receive are not modelled.
- `SportsData.GetBettingFeeds`: the code reads the clock once per game; the model uses one `now` for the call, so feeds built at different moments get the same stamp. The season's fetch outcomes are a function the caller supplies.
