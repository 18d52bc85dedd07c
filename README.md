# Badminton doubles schedule generator

A Dafny model of the browser app's schedule generator, with the submit-time slot check
that guards it. The generator takes a list of player names, each player's requested number
of games, and a number of games `numGames`. For each game it does three things:

- it filters the players who still have games left, and stops early when fewer than four remain;
- it draws four of them at random, taking each one out of the pool;
- it takes one game from each of the four, and appends a numbered game record with the first two
  drawn as `team1` and the last two as `team2`.

The submit handler only calls the generator when the requested games add up to exactly
`numGames * 4`.

The project has three modules:

- `Seqs` (`seqs.dfy`): sums, distinctness, increasing order, and lemmas about sums.
- `ScheduleSpec` (`schedule_spec.dfy`): the generator written as functions, and every property
  of a run.
  - `Draw` is the splice loop.
  - `DecrementAll` is the `forEach` decrement.
  - `Play` is one iteration.
  - `Loop` is the `for` loop with its `break`.
  - `Generate` is a whole call.
  - The loop invariant is `Consistent`. The property lemmas are derived from it.
- `App` (`app.dfy`): the generator and the submit handler as imperative methods. The players'
  counts live in an array that the methods decrement in place, and the pool shrinks by cutting
  one entry out at a time. Each method's `ensures` says it computes exactly what the matching
  function of `ScheduleSpec` describes: `Draw` for `DrawPlayers`, `DecrementAll` for
  `TakeGames`, and `Generate` for `GenerateSchedule` and `Submit`. So every lemma about
  `Generate` applies to their schedules.

## Modelling choices

- **A player is identified by its position in the roster.**
  - `remaining[i]` is player `i`'s count.
  - The pool and the drawn players are sequences of positions. Two equal entries therefore
    denote the same record, just as two references to one player object do.
- **`Math.random` becomes an oracle `random: nat -> nat`.**
  - The d-th draw of a run takes pool entry `random(d) % |available|`.
  - Every sequence of index choices comes from some oracle. So a lemma proved for every
    `random` holds whatever the draws turn out to be.
- **Names and counts are paired by position.**
  - Every roster row has one name field and one count selector (app.js:11-19). Only empty
    names are dropped (app.js:25), and every count is kept (app.js:26). So the app never has
    fewer counts than names.
  - When a name is dropped, each later name is paired with the count of a later row, and the
    trailing counts go unused by the generator. The slot check still adds them up (app.js:28).
    The model reproduces this exactly: `Quotas` ensures that the starting counts are
    `games[..|names|]` whenever `|names| <= |games|`.
  - The generator has no equal-length precondition. The case of fewer counts than names cannot
    arise in the app. The model gives such a player a count of 0, which, like the `undefined`
    the JavaScript code would read, is never `> 0`.
  - Only the lemmas about exact game counts require `|names| == |games|`, which holds when no
    name is empty.
- **Counts are unbounded integers.** The generator accepts negative requested counts, and so
  does the model. "Counts never go negative" is stated for players whose requested count is
  non-negative. The form only offers counts 0 to 8 (app.js:16), so every count the app can
  produce is non-negative and `RemainingCounts` covers it.

## Model

| member | source | states |
|---|---|---|
| ScheduleSpec.Quotas | app.js:40-43 | each player's starting count is the count in its position: with equal lengths the counts are exactly `games`, with more counts than names they are `games[..|names|]`, and a player without a count starts at 0 |
| ScheduleSpec.Eligible | app.js:49 | the pool holds exactly the players with a count above 0, each once |
| ScheduleSpec.EligibleInRosterOrder | app.js:49 | the pool lists those players in increasing roster position, the order the filter keeps |
| ScheduleSpec.Draw | app.js:53-57 | the drawing loop moves players from pool to selection without losing any, keeps what was already drawn as a prefix, ends with min(4, pool) drawn, and uses one oracle draw per player |
| ScheduleSpec.DrawKeepsPlayers | app.js:53-57 | after drawing, a player is drawn or still in the pool exactly when it was in the pool or drawn before |
| ScheduleSpec.DrawDistinct | app.js:53-57 | drawing from a pool without repeats never draws the same player twice |
| ScheduleSpec.DrawTakesWholeSmallPool | app.js:53-57 | from a pool of four or fewer, every player in it is drawn |
| ScheduleSpec.DecrementAll | app.js:58 | the total count drops by the number drawn; with distinct players, each drawn player's count drops by exactly 1 and every other count is unchanged |
| ScheduleSpec.GameOf | app.js:60-62 | the record's four names are exactly the names of the four drawn players; its split into `team1` and `team2` and its numbering are stated by `GamesAreFourDistinctPlayers` and `ScheduleShape` |
| ScheduleSpec.Play | app.js:49-62 | one iteration keeps one count per player and appends exactly one game |
| ScheduleSpec.Loop | app.js:47-50 | the game loop from iteration `g` on keeps one count per player; its bounds and early stop are stated by `LoopStops`, its invariant by `LoopKeepsConsistent` |
| ScheduleSpec.Generate | app.js:39-65 | a whole call keeps one count per player; everything else about a run is stated by `GenerateConsistent` and the whole-run lemmas below |
| ScheduleSpec.LoopStops | app.js:47-50 | the loop never pushes more than `numGames` games, and it ends short only when fewer than four players have games left |
| ScheduleSpec.StepKeepsConsistent | app.js:58-62 | one game keeps the loop invariant: every game is built from a proper lineup, counts equal start less appearances, drawn players were eligible, pools had four, total drops by 4 |
| ScheduleSpec.LoopKeepsConsistent | app.js:47-63 | the whole game loop keeps that invariant |
| ScheduleSpec.GenerateConsistent | app.js:39-65 | every run ends in a state satisfying the invariant, with at most `numGames` games, short only at the `break` |
| ScheduleSpec.ScheduleShape | app.js:47-62 | the schedule has at most `numGames` games, numbered 1, 2, ... in order |
| ScheduleSpec.GamesAreFourDistinctPlayers | app.js:53-61 | every game has four different roster players; `team1` is the first two drawn and `team2` the last two |
| ScheduleSpec.DistinctNamesInGame | app.js:60-61 | the record built from a proper lineup over distinct names holds four different names |
| ScheduleSpec.DistinctNamesInEveryGame | app.js:60-61 | with distinct roster names, the four names in every game are pairwise different |
| ScheduleSpec.OnlyEligiblePlayersAreDrawn | app.js:49-55 | every drawn player was in the pool of players with games left when its game was drawn |
| ScheduleSpec.EveryGameHadFullPool | app.js:49-50 | every game was drawn from a pool of at least four players with games left |
| ScheduleSpec.RemainingCounts | app.js:42-58 | each final count is the starting count less the games played; nobody plays more than a positive starting count; a non-negative count never goes negative |
| ScheduleSpec.RemainingTotal | app.js:58-62 | the total of the final counts is the starting total less 4 per game |
| ScheduleSpec.ShortScheduleMeansSmallPool | app.js:47-50 | a schedule shorter than `numGames` leaves fewer than four players with games left |
| ScheduleSpec.ExhaustedCountsAreMet | app.js:58 | once four games per game played use up non-negative starting counts, every player played exactly its count and has 0 left |
| ScheduleSpec.CompleteScheduleMeetsQuotas | app.js:27-63 | when the counts pass the slot check and all `numGames` games are produced, every player plays exactly its requested number of games |
| ScheduleSpec.UnitCountsStep | app.js:49-58 | one game over counts of 0 or 1 leaves counts of 0 or 1 and takes 4 off the total |
| ScheduleSpec.LoopCompletesUnitCounts | app.js:47-63 | with counts of 0 or 1 adding up to four per game still to go, the loop never breaks early |
| ScheduleSpec.UnitQuotasAlwaysComplete | app.js:39-65 | counts of 0 or 1 passing the slot check always give all `numGames` games with each player playing its count |
| ScheduleSpec.LoopCompletesFourPlayers | app.js:47-63 | four players whose counts equal the games still to go keep the loop running to `numGames` games; that each of them plays every game is stated by `FourPlayersPlayEveryGame` |
| ScheduleSpec.FourPlayersPlayEveryGame | app.js:39-65 | four players each asking for `numGames` games all play in every one of the `numGames` games |
| ScheduleSpec.OverfullQuotaNeverCompletes | app.js:27-50 | counts that pass the slot check but give one player more than `numGames` games never produce a full schedule, whatever the draws |
| ScheduleSpec.FivePlayerExampleStopsEarly | app.js:27-50 | counts 4, 1, 1, 1, 1 pass the slot check for 2 games, yet every run stops with fewer than 2 games |
| App.DrawPlayers | app.js:52-57 | the drawing `while` loop returns exactly the players and draw count of `Draw` on the pool |
| App.TakeGames | app.js:58 | decrementing each drawn player's count in place leaves exactly `DecrementAll` of the old counts |
| App.GenerateSchedule | app.js:39-65 | the imperative generator returns exactly the schedule of `Generate`: at most `numGames` games, numbered 1, 2, ... |
| App.Submit | app.js:27-35 | rejected exactly when the games sum (`Seqs.Sum` of all counts, app.js:28) differs from `numGames * 4`, carrying both totals; otherwise the generator's schedule |

## Left out

- The page setup, the add-player button with its 12-player cap, and the option lists (app.js:1-20) are not modelled. They are user interface.
- Reading the form is not modelled (app.js:24-26): `querySelectorAll`, `trim`, the empty-name filter and `parseInt`. `names`, `games` and `numGames` are inputs, already parsed to strings and integers.
  - A `NaN` from an empty or non-numeric field is not modelled.
  - The pairing of names with counts after the filter is modelled, as described under "Modelling choices".
- The `alert` (app.js:31) is modelled only as the `Rejected` outcome carrying the two totals. Its message text is not modelled.
- The HTML rendering of the schedule, `displaySchedule` (app.js:67-79), is not modelled.
- `Math.random` (app.js:54) is replaced by the index oracle. Floating-point arithmetic and the distribution of the draws are not modelled.
- JavaScript numbers are doubles, and the model uses unbounded integers. Sums and `numGames * 4` beyond 2^53 are outside the model.
- Input validation is not modelled because the code has none. There are no checks for too few players, duplicate names or zero-game players, and no partner history, group test or window search.
  - The code accepts a player with 0 games. That player simply never becomes eligible.
  - `DistinctNamesInEveryGame` assumes distinct names because nothing in the code enforces them.
- The code does not guarantee that every player plays its requested number of games once the slot check passes. `OverfullQuotaNeverCompletes` and `FivePlayerExampleStopsEarly` show inputs that pass the check and still end in a short schedule. Exact counts are proved only for a complete schedule (`CompleteScheduleMeetsQuotas`) and for the input families where completion is proved (`UnitQuotasAlwaysComplete`, `FourPlayersPlayEveryGame`).
