# Cricket player auction — a verified model of its two auction engines

The repository runs a cricket player auction in two ways:

- **`main.py`** is a single-process auction driven by a page of the UI. An
  `AuctionManager` holds the teams, the players and the current state of the
  auction. Players are split into four role batches, and the batches are put
  up in a configured role order. The next player is drawn at random from the
  ten top-ranked players of the current batch. Bids are accepted under an
  eligibility rule (funds, squad cap, no consecutive bid by the same team). A
  sale moves the price from the team's purse to its roster. Money is counted
  here in tenths of a crore, so 0.5 Cr is `5`.
- **`app.py`** is a multi-room auction served over sockets. A `Room` holds a
  roster of bidders, a list of lots taken one index at a time, and one team
  composition per bidder. A bid may only add +0.5 Cr or +1 Cr, and the same
  bidder may not bid twice in a row. Sales and skips are logged in
  `sold_players`. At the end the room reports statistics. Money is counted here
  in paise (1 Cr = 10^7).

Both engines draw a base price from a skill tier (`base_price.dfy`).

Files:

| file | module | what it holds |
|---|---|---|
| `wrappers.dfy` | `Wrappers` | `Option`, Python truthiness of optional strings, `a or b` |
| `text.dfy` | `Text` | `str.lower`, `str.strip` and string `<=`, for ASCII |
| `sorting.dfy` | `Sorting` | a stable sort by a total preorder, with its lemmas |
| `roles.dfy` | `Roles` | the four playing roles and their values |
| `role_names.dfy` | `RoleNames` | `_normalize_role` |
| `base_price.dfy` | `BasePrice` | the skill-tier base price in both units |
| `averages.dfy` | `Averages` | the mean sale price both engines report |
| `manager.dfy` | `Manager` | `main.py`: `Player`, `Team`, `AuctionManager` and the setup steps |
| `room.dfy` | `Rooms` | `app.py`: `Room`, the handler bodies, the completion statistics |

Modelling choices:

- Randomness is a nondeterministic choice (`:|`):
  - `random.choice` picks any price of the tier;
  - `random.randint` picks any index within the window;
  - `random.shuffle` produces any permutation.
- Objects whose fields the source updates in place are classes: `Player` and
  `Team` in `main.py`, `AuctionManager` and `Room`. `main.py`'s `Player` is a
  class because its status and sale fields are written through every list that
  holds it.
- `app.py`'s player records are values (`LotPlayer`). A socket handler becomes
  a `Room` method that returns an error kind or an outcome instead of emitting
  a message.
- `Room.Valid()` is the room invariant that every method keeps:
  - the owner is a bidder and nobody is listed twice;
  - the lot index is 0 or within the lots;
  - exactly the bidders with a composition have a team name;
  - every composition belongs to a bidder;
  - each composition's `total_spent + remaining_purse` equals the team purse
    in paise;
  - each composition's role counts are exact.
- Three behaviours of the code that the model keeps as written:
  - `app.py`'s bid check has no purse, squad, active-lot or terminal-state
    test (`Rooms.BidCheck`);
  - ending a room early appends no records (`Rooms.Room.EndAuctionEarly`);
  - a sale credits a composition only when the winning bidder has one
    (`Rooms.CreditBidder`).

## Model

| member | source | states |
|---|---|---|
| `Manager.Player.constructor` | main.py:45-56 | a new player is unsold, with no buyer and no price |
| `Manager.Team.constructor` | main.py:58-65 | a new team starts with `original_purse == purse`, an empty roster and `can_bid` |
| `Manager.Team.AddPlayer` | main.py:67-76 | succeeds iff `purse >= price`. On success: the purse drops by exactly `price`; the player is appended to the roster, sold to this team at `price`; `total_spent` grows by `price`; only that player's role count goes up. On failure nothing changes |
| `Manager.Team.GetRoleCount` | main.py:78-80 | counts roster players with exactly that role, never more than the roster |
| `Manager.CountRoleAppend` | main.py:78-80 | appending a player raises only its own role's count, by one |
| `Manager.RoleCountsCoverRoster` | main.py:78-80 | when every role on a roster is one of the four values, the four counts add up to the roster size |
| `Manager.Team.TotalSpent` | main.py:82-84 | spending plus the current purse is the original purse |
| `Manager.SpentIsPurseLoss` | main.py:275 | the sum of all teams' spending is the original purses minus the current purses |
| `Manager.SpentAfterSale` | main.py:193 | when one team alone loses `d` from its purse, total spending grows by `d` |
| `Manager.FindTeam` | main.py:223-225 | a found team is in the list with that id; nothing is found iff no team has the id |
| `Manager.FindTeamFirst` | main.py:223-225 | the team found is the first with that id |
| `Manager.AuctionManager.GetTeamById` | main.py:223-225 | as `FindTeam`, over the manager's teams |
| `Text.Lower` | main.py:119 | same length, each character lowered |
| `Text.Strip` | main.py:119 | no white space left at either end; a string without any is returned unchanged |
| `Text.StripIsSlice` | main.py:119 | the result is one contiguous slice of the input, with only white space before and after it |
| `RoleNames.RoleKeyOf` | main.py:119 | a lower-case key with no surrounding white space is its own lowered, stripped form |
| `RoleNames.NormalizeRoleSpellings` | main.py:117-130 | each role is returned iff the lowered, stripped text is one of its listed spellings; All-rounder also for any unlisted text |
| `RoleNames.NormalizeRoleValue` | main.py:117-130 | a role's own value normalises to that role |
| `RoleNames.NormalizeRoleIdempotent` | main.py:117-130 | normalising a normalised role changes nothing |
| `Roles.RoleOfValue` | main.py:26-30 | finds the role whose value is exactly the string, or reports that none has it |
| `Roles.AllRolesListed` | main.py:106 | every role is one of the four enumerated batch keys |
| `Manager.ClassifyMembers` | main.py:108-113 | a batch holds exactly the players classified to its role |
| `Manager.ClassifyAppend` | main.py:108-113 | appending a player extends only its own role's batch |
| `Manager.ClassifyPartition` | main.py:104-115 | the four batches together are a permutation of the players |
| `Manager.RejoinedCons` | main.py:108-113 | the first player adds itself to exactly one of the four batches |
| `Manager.ClassifySizes` | main.py:104-115 | the four batch sizes add up to the number of players |
| `Manager.RoleBatchMembers` | main.py:104-115 | a role's batch holds exactly the players whose role normalises to it |
| `Manager.RoleBatchesPartition` | main.py:104-115 | every player lands in exactly one batch: the four batches are a permutation of the players and their sizes add up |
| `Manager.Distribute` | main.py:106-115 | the loop leaves every role keyed, each batch the role's players in input order |
| `Manager.AuctionManager.OrganizePlayersByRole` | main.py:104-115 | all four roles are keys and each batch is that role's players in input order |
| `Sorting.SortBy` | main.py:137-141 | a permutation of its input |
| `Sorting.SortBySorted` | main.py:137-141 | the result is sorted when the order is a total preorder |
| `Sorting.SortBySortedUnchanged` | app.py:104-111 | an already sorted list is left as it is |
| `Sorting.SortByStable` | app.py:104-111 | the sort is stable: the entries tied with any given entry keep their input order |
| `Sorting.TiesWithInsert` | app.py:104-111 | inserting into a sorted list appends the new entry to the entries it is tied with, after those already there |
| `Manager.SortedByPriority` | main.py:137-141 | a permutation sorted by `(base_price, skill_rating)`, highest first |
| `Manager.SortedByPriorityStable` | main.py:137-141 | players tied on `(base_price, skill_rating)` keep their pool order |
| `Manager.DrawIsTopRanked` | main.py:137-147 | a player drawn from the window is in the pool, and fewer than ten pool players outrank it |
| `Manager.OutrankedAtMostPosition` | main.py:137-141 | in a list sorted by priority, at most `k` entries outrank the entry at position `k` |
| `Manager.WithoutId` | main.py:150-153 | keeps exactly the players with another id, so the pool shrinks when the id is present |
| `Manager.AuctionManager.GetNextPlayer` | main.py:132-155 | empty pool: none. Otherwise: one of the first `min(10, n)` players in priority order, and exactly the players with its id leave the pool |
| `Manager.AuctionManager.CanTeamBid` | main.py:177-182 | holds iff all four hold: `can_bid`, purse covers the amount, roster below the squad cap, team is not the last bidder |
| `Manager.AuctionManager.LastBidderCannotBid` | main.py:177-182 | the team that placed the last accepted bid cannot bid again |
| `Manager.AuctionManager.PlaceBid` | main.py:157-175 | succeeds iff the team exists and may bid. On success: sets bid, current team and last bidder; appends exactly one history entry; the bidder then cannot bid again. On failure nothing changes |
| `Manager.AuctionManager.SellPlayer` | main.py:184-200 | succeeds iff there is a current player, a current team and the purse covers the bid. On success: the team buys the player; the other teams are untouched; when the teams are distinct objects, total spending grows by the bid; every `can_bid` is recomputed; the lot is reset. On failure nothing changes |
| `Manager.AuctionManager.Settle` | main.py:193-198 | the buy, eligibility update and reset once the team is found |
| `Manager.AuctionManager.Buy` | main.py:193 | the team's purse and roster change as in `add_player`, and, when the teams are distinct objects, total spending grows by the bid |
| `Manager.AuctionManager.MarkUnsold` | main.py:202-206 | with a current player: it becomes unsold and the lot is reset; without one nothing changes |
| `Manager.AuctionManager.ResetCurrentAuction` | main.py:208-213 | no player, bid 0, no current team, no last bidder |
| `Manager.AuctionManager.UpdateTeamEligibility` | main.py:215-221 | every team's `can_bid` becomes `purse >= 0.5 Cr and roster < squad cap`; purses and rosters kept |
| `Manager.FirstReadyRole` | main.py:251-256 | the first role of the order whose batch exists and is non-empty; none iff no role of the order qualifies |
| `Manager.MarkAllUnsold` | main.py:229-231 | every listed player becomes unsold; sale details are kept |
| `Manager.AuctionManager.ProceedToNextBatch` | main.py:227-249 | the abandoned batch is marked unsold and the lot reset. With a ready batch: loads it, empties it in the batches, sets the current batch, returns true. Otherwise: returns false and completes the auction only when no team may bid |
| `Manager.AuctionManager.ClearBatch` | main.py:229-234 | every player left in the pool becomes unsold, the pool is emptied and the lot reset |
| `Manager.AuctionManager.LoadNextBatch` | main.py:236-249 | with a ready batch: loads it, empties it in the batches, sets the current batch, returns true. Otherwise: returns false, leaves pool, batches and current batch alone, and completes the auction only when no team may bid |
| `Manager.AuctionManager.EndAuctionEarly` | main.py:258-268 | completes the auction; every player in the pool or any batch becomes unsold; teams are untouched |
| `Manager.WithStatus` | main.py:272-273 | keeps exactly the players with that status |
| `Manager.StatusCounts` | main.py:272-273 | sold plus unsold never exceeds the players, and equals them when nobody is withdrawn |
| `Manager.FirstMaxPaid` | main.py:283 | the first player with the largest price |
| `Manager.HighestPaid` | main.py:283 | some sold player with maximal price iff anyone is sold |
| `Averages.AveragePrice` | main.py:282 | 0 when nothing is sold; otherwise the mean, whose product with the count is the total |
| `Manager.AuctionManager.GetAuctionStats` | main.py:270-286 | the counts by status; total spent is the sum of all teams' spending; the average; the highest paid; remaining in batch and in all batches |
| `Manager.ShuffleEach` | main.py:598-601 | each batch becomes a permutation of itself |
| `Manager.AuctionManager.LoadBatches` | main.py:596-601 | every batch is its role's players, in order or shuffled |
| `Manager.AuctionManager.StartFirstBatch` | main.py:603-608 | when the first role of the order names a batch: that batch becomes the pool, is emptied, and becomes current. Otherwise nothing changes |
| `Manager.AuctionManager.SetUp` | main.py:592-608 | installs teams, players and settings; every batch is its role's players (or a permutation of them); the first role's batch is loaded |
| `Manager.AuctionManager.BeginNextLot` | main.py:656-660 | with no current player and a non-empty pool: draws a top-ranked player and opens it at its base price with no bidder. Otherwise nothing changes |
| `Manager.AuctionManager.constructor` | main.py:89-102 | the initial empty auction with the default squad cap of 15 |
| `BasePrice.TierChoices` | main.py:362-375 | every price is a multiple of 0.5 Cr between 0.5 and 5 Cr; below 60 only 0.5 Cr; 5 Cr is on offer iff skill is at least 91 |
| `BasePrice.TierMonotone` | main.py:362-375 | a higher skill never lowers the cheapest or the dearest price on offer |
| `BasePrice.TierExtremes` | main.py:362-375 | each tier lists its cheapest price first and its dearest last |
| `BasePrice.CalculateBasePriceTenths` | main.py:361-375 | the price is one of the tier's prices |
| `BasePrice.PaiseChoices` | app.py:27-40 | `app.py`'s own tier table in paise; it has as many entries as `main.py`'s tier, and each is the matching `main.py` price in tenths of a crore times a million paise |
| `BasePrice.CalculateBasePricePaise` | app.py:27-40 | the price is one of the tier's prices in paise, a whole number of tenths of a crore |
| `Wrappers.OrElse` | app.py:70 | `team_name or username`: the team name when it is a non-empty string, else the username |
| `Rooms.FreshComposition` | app.py:72-77 | a new composition has no players and no spending, is balanced against the purse, and has all four role counts at 0 |
| `Rooms.FreshKeeps` | app.py:72-77 | giving a bidder a fresh composition keeps every composition balanced and exactly counted |
| `Rooms.RosterJoin` | app.py:65-77 | a new bidder joining with a team name and a fresh composition keeps the roster invariant |
| `Rooms.RosterRegister` | app.py:65-77 | the owner given a team name and a fresh composition keeps the roster invariant |
| `Rooms.Room.constructor` | app.py:44-63 | the owner is the only bidder; the defaults are 8, 11, `random` and 100 Cr; no compositions and no team names |
| `Rooms.Room.AddBidder` | app.py:65-77 | a user already on the roster changes nothing. A new user is appended with a team name (the username when none is given) and a fresh composition at the current purse |
| `Rooms.Room.GetCurrentPlayer` | app.py:79-83 | none iff the index is past the end; otherwise the lot at the index |
| `Rooms.Room.NextPlayer` | app.py:85-92 | advances iff the index is below `len - 1`. Advancing adds exactly 1 to the index and clears bid and bidder, and a lot is then current. Otherwise nothing changes |
| `Rooms.Credit` | app.py:94-102 | the player joins the roster; the price moves from purse to spending, so their sum is kept; only the player's own role count goes up, and only if the role is one of the four |
| `Rooms.CountRoleNameAppend` | app.py:100-102 | appending a player raises only its own role's count |
| `Rooms.CreditKeepsInvariant` | app.py:94-102 | a sale keeps a composition balanced and its role counts exact |
| `Rooms.CreditBidder` | app.py:94-96 | only a non-empty bidder with a composition is credited; every other composition is unchanged |
| `Rooms.CreditBidderKeeps` | app.py:94-102 | crediting keeps every composition balanced and exactly counted |
| `Rooms.RosterCredit` | app.py:94-102 | a credited sale keeps the roster invariant |
| `Rooms.Room.UpdateTeamComposition` | app.py:94-102 | credits the bidder as `CreditBidder`. It raises exactly when a creditable bidder is credited with no player, after roster and money are updated |
| `Rooms.NameLePreorder` | app.py:106 | name order is total and transitive |
| `Text.LexLeTotal` | app.py:106 | two strings are always ordered one way or the other |
| `Text.LexLeTransitive` | app.py:106 | string order is transitive |
| `Rooms.ArrangementOrders` | app.py:104-113 | every arrangement is a permutation of the same length; for the three sorted orders it is ordered by name, by rating descending or by rating ascending |
| `Rooms.ArrangementStable` | app.py:104-111 | for the three sorted orders, lots with equal keys keep their input order |
| `Rooms.Room.SortAuctionPlayers` | app.py:104-113 | the stable sort by name, by `overall` (default 0) descending or ascending, any permutation for `random`, unchanged for any other order |
| `Rooms.Reprice` | app.py:241-245 | spending, roster and role counts kept; the remaining purse becomes the new purse less spending |
| `Rooms.Repriced` | app.py:243-245 | every composition is repriced and no bidder is added or dropped |
| `Rooms.Room.RepriceCompositions` | app.py:243-245 | the loop leaves every composition repriced against the room's purse |
| `Rooms.RepricedKeeps` | app.py:240-245 | repricing for a new purse balances every composition against it and keeps the role counts exact |
| `Rooms.RosterReprice` | app.py:240-245 | a new purse with every composition repriced keeps the roster invariant |
| `Rooms.Room.ChangeOrder` | app.py:237-239 | the new order is set and the lots are rearranged by it |
| `Rooms.Room.ChangePurse` | app.py:240-245 | the new purse is set and every composition is repriced against it |
| `Rooms.Room.UpdateRoomSettings` | app.py:217-246 | a non-owner gets `Forbidden` and nothing changes. For the owner: each supplied setting is set; a new order re-sorts the lots; a new purse makes every `remaining_purse` equal `purse * 10^7 - total_spent` |
| `Rooms.Room.StartAuction` | app.py:313-333 | sorts the lots and marks the auction started; fails with `NoPlayersToAuction` iff there are no lots; otherwise opens the current lot at its base price |
| `Rooms.BidCheck` | app.py:360-405 | in order: an increment other than +0.5 Cr or +1 Cr is rejected, then a consecutive bid. An accepted bid always exceeds the current one, so the "not higher" rejection is never returned |
| `Rooms.Room.PlaceBid` | app.py:360-378 | applies `BidCheck`: an accepted bid becomes the current bid and bidder, and that bidder then cannot place the next bid; a rejection changes nothing |
| `Rooms.Winners` | app.py:472 | keeps exactly the records with a winner |
| `Rooms.FirstMaxBid` | app.py:477 | the first record with the largest final bid |
| `Rooms.CompletionStats` | app.py:472-481 | the count is the number of records with a winner; total spent is the sum of their bids; the average; a most expensive record iff any record has a winner |
| `Rooms.SkipKeepsStats` | app.py:509-514 | a record without a winner leaves every statistic unchanged |
| `Rooms.SaleAddsToStats` | app.py:472-481 | a sale with a winner adds one to the count and its bid to the total; it becomes the most expensive exactly when it beats every earlier one |
| `Rooms.WinnerOf` | app.py:423 | a winner iff the bidder is a non-empty name; exactly the bidder's team name when it has one, else the bidder |
| `Rooms.Room.RecordSale` | app.py:417-434 | appends exactly one record (current lot, current bid, winner) and credits the winner's composition |
| `Rooms.Room.Advance` | app.py:457-468 | `next_player()` runs even after an early end. Only when it succeeds and the room has not ended early is the next lot opened at its base price; otherwise the statistics are reported |
| `Rooms.Room.SellPlayer` | app.py:417-491 | one record is appended and the composition credited only when the current bidder is set. It raises exactly when a creditable bidder buys with no current lot. Otherwise the room moves on as `Advance` |
| `Rooms.Room.SkipPlayer` | app.py:503-523 | appends exactly one record (lot, 0, no winner), changes no composition, and moves on as `Advance` |
| `Rooms.Room.EndAuctionEarly` | app.py:573-598 | sets the early-end flag, appends no records, reports the statistics of the records so far |
| `Rooms.PriceAll` | app.py:191-193 | every record is kept apart from its base price, which is drawn from the tier of `overall` (default 50) |
| `Rooms.CreateRoom` | app.py:186-198 | the priced lots, the owner the only bidder, and neither a composition nor a team name for the owner |
| `Rooms.Room.RegisterOwner` | app.py:65-77 | the owner receives a team name and a fresh composition, as a joining bidder does |
| `Rooms.CreateRoomCorrected` | app.py:186-198 | as `CreateRoom`, but the owner has the chosen team name and a fresh 100 Cr composition |

## Findings

| source | as written | input that shows it | evidently intended | confidence | as-written member | corrected member |
|---|---|---|---|---|---|---|
| app.py:198 | `Room.__init__` already puts the owner in `bidders`, so the owner's `add_bidder` returns without recording a team name or a composition | create a room as `alice` with team name `Lions`: `team_names` and `team_compositions` stay empty, and a lot `alice` wins is logged but credited to no composition | the owner is registered with the chosen team name and a fresh composition, as the comment at that line says | high, not executed | `Rooms.CreateRoom` | `Rooms.CreateRoomCorrected` |

## Left out

- Timers (`timer_countdown`, `start_timer`, `stop_timer`) and `time.sleep`: the timer threads are left out, and starting or stopping a timer is taken to change nothing in the room.
- Concurrency: every handler is modelled as one atomic step (for a sale, `RecordSale` then `Advance`). The server runs under eventlet (app.py:17), so `socketio.sleep(3)` at app.py:455 and app.py:519 yields to other handlers before `next_player()` runs. Interleavings during that pause are not captured: a second `sell_player` or `skip_player` for the same lot (a double record or a double credit), a `place_bid` that lands and is then cleared by `next_player()`, or an `end_auction_early` in between, which is why app.py:457 tests `auction_ended_early` after the pause.
- `timer_active` is left out with the timers.
- Socket transport: `emit`, `join_room`, the Flask routes and `health_check`. The team-compositions snapshot a handler broadcasts is output only, and `handle_get_team_compositions` only reads and emits.
- `handle_join_room` is left out: its only state change is the `add_bidder` call modelled by `Rooms.Room.AddBidder`.
- The global `rooms` registry and `generate_room_code` (uuid): a handler is modelled on the room it finds, and the "Room not found" answer is left out. The code is a parameter of `Rooms.CreateRoom`.
- Some fields of a request may be absent. Those the handlers read unconditionally (`username`, `bid_amount`, `bidder`, a record's `name`) are taken to be present; a missing one raises `KeyError` in the source.
- The setting values (`max_players`, `squad_size`, `team_purse`) are integers in the model; the source accepts any JSON number.
- `Rooms.OverallKey`: a lot's `overall` is a number or absent in the model. A client may send a non-numeric `overall`; then the comparisons of app.py:104-111 and `calculate_base_price` at app.py:27-40 raise `TypeError`, which the model does not capture.
- `Manager.AuctionManager.SellPlayer` (and `Manager.AuctionManager.Buy`, which it calls): the growth of total spending by the bid is promised only when the teams are distinct objects. No invariant of the model keeps the team list free of aliases, though `setup_page` builds one fresh `Team` per entry (main.py:539-552).
- The Streamlit UI (`setup_page`, `auction_page`, the `display_*` functions, `results_page`) is left out apart from its state steps at main.py:592-608 and 656-660.
- `load_players_from_csv`, `_create_player_from_row`, `generate_sample_players` and `export_to_excel` are left out: they are file I/O, dataframes and random floating-point statistics.
- The timestamps of `bid_history` are dropped; an entry keeps team, player and amount.
- Floating-point money becomes integers: tenths of a crore in `main.py`, paise in `app.py`. The mean price is a `real`.
- `Manager.Player.constructor`: `skill_rating` is a `real` in the model, whereas `main.py` stores an integer rating (main.py:43, main.py:348). It is only compared, as a sort key, and an integral real compares as `int(skill)` does; the model does not require it to be integral.
- `Text.Lower`: `str.lower` and `str.strip` are modelled for ASCII. Unicode case mapping and Unicode white space are not modelled.
- `main.py:104` declares its return type with a syntax error; the model follows the evident body.
- `Manager.Player.constructor`: the `stats` record is reduced to the one field the auction reads, `skill_rating`.
- `Rooms.BidCheck`: `bidder` is a string, so the case of a request whose `bidder` is `null` matching an empty floor is not modelled.
