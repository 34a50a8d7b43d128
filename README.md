# Golf league, modelled in Dafny

A model of the core of a small golf-league web app. The season has six weeks, and each round is nine holes.
- Players declare a round for a week the commissioners have opened, then submit nine hole scores.
- Commissioners edit and lock scores, start weeks and track buy-ins.
- Weekly and season leaderboards rank the players. Every week without a submitted round counts as a 63-stroke penalty.

The model follows the program's own structure, one module per file:

| file | module | models |
|---|---|---|
| `types.dfy` | `Types` | the records of `src/types/index.ts`: `Player`, `HoleScore`, `WeeklyRound`, `AuthUser`, and an `Option` for optional fields |
| `strings.dfy` | `Strings` | the string operations the components rely on: decimal rendering of a number, `parseInt` (`None` is NaN), `split`, and a last-index search |
| `scoring.dfy` | `Scoring` | the scoring kernel `src/utils/scoring.ts`. The week loops are methods proved against recursive specification functions |
| `scorecard.dfy` | `Scorecard` | the hole-to-strokes map both score forms keep, the nine `HoleScore` records built from it, and the `forEach` that loads it back |
| `league_store.dfy` | `LeagueStore` | the store `src/store/leagueStore.ts`. The class `League` holds its fields. Each action's list rewrite is also a pure function that carries the properties |
| `leaderboard.dfy` | `Leaderboard` | `generateLeaderboard`, its sort, ranks and the active-week gate of `LeaderBoard.tsx` |
| `score_entry.dfy` | `ScoreEntry` | the score form of `ScoreEntry.tsx`: input handling, the filled check, the confirmed submission and the declared/submitted gate |
| `commissioner.dfy` | `Commissioner` | `CommissionerDashboard.tsx`: the edit modal and its key, the edit inputs, and the table and button gating |
| `round_declaration.dfy` | `RoundDeclaration` | `RoundDeclaration.tsx`: the declared check, the declare-button gate, the week list and `handleDeclare` |
| `login.dfy` | `Login` | `Login.tsx`: the ordered registration checks, the login and register handlers and the mode switch |

Store state, component state (`useState`) and the credentials table are class fields that methods update in place. The lists the store rewrites with `map` are pure functions of the old list.

The store only appends to its `users` table and overwrites its entries. It never removes one.

## Model

| member | source | states |
|---|---|---|
| `Strings.ParseInt` | src/components/ScoreEntry.tsx:23 | `parseInt` is NaN exactly when no decimal digit follows the optional sign |
| `Strings.ParseIntRoundTrip` | src/components/ScoreEntry.tsx:23 | parsing the decimal rendering of any integer gives that integer back |
| `Strings.IntToString` | src/components/CommissionerDashboard.tsx:12 | the rendering of a number is non-empty and holds a '-' exactly when the number is negative |
| `Strings.Split` | src/components/CommissionerDashboard.tsx:197 | `split` yields at least one piece, and no piece holds the separator |
| `Strings.JoinSplit` | src/components/CommissionerDashboard.tsx:197 | joining the pieces of a split with the separator rebuilds the string |
| `Strings.SplitAtFirstSeparator` | src/components/CommissionerDashboard.tsx:197 | the first piece ends at the first separator |
| `Strings.LastIndex` | src/components/CommissionerDashboard.tsx:197 | the result is −1 or an index holding the character, with no occurrence after it |
| `Strings.LastIndexAfter` | src/components/CommissionerDashboard.tsx:197 | in `a + c + b` with no `c` in `b`, the last `c` is at `|a|` |
| `Strings.Utf16Length` | src/components/Login.tsx:52 | `length` counts UTF-16 code units: between one and two per character, and 0 only for the empty string |
| `Strings.Utf16LengthOfEmoji` | src/components/Login.tsx:52 | two characters beyond U+FFFF are four units long |
| `Scoring.RoundTotal` | src/utils/scoring.ts:8-10 | the `reduce` sum of the strokes; its properties are `RoundTotalAppend` and `RoundTotalBounds` |
| `Scoring.RoundTotalAppend` | src/utils/scoring.ts:8-10 | the round total is additive over concatenation (and 0 for no holes) |
| `Scoring.RoundTotalBounds` | src/utils/scoring.ts:8-10 | strokes within [lo, hi] give a total within [n·lo, n·hi] |
| `Scoring.FindWeek` | src/utils/scoring.ts:16 | `find` returns a round of that week, and returns none exactly when no round has that week |
| `Scoring.FindWeekFirst` | src/utils/scoring.ts:16 | only the first round of a week is ever found |
| `Scoring.MissedWeeks` | src/utils/scoring.ts:27-36 | the missed-week count lies between 0 and n |
| `Scoring.WeeklyScores` | src/utils/scoring.ts:44-51 | n slots; slot i holds week i+1's submitted total or null |
| `Scoring.WeeklyScoresNullCount` | src/utils/scoring.ts:44-51 | the nulls of the score array are exactly the missed weeks |
| `Scoring.SeasonTotalSplit` | src/utils/scoring.ts:13-24 | the season total is 63 × missed weeks plus the totals of the submitted rounds found |
| `Scoring.MissedPlusPlayed` | src/utils/scoring.ts:27-36 | missed weeks plus played weeks make n |
| `Scoring.CalculateSeasonTotal` | src/utils/scoring.ts:13-24 | the loop computes the season total, which is 63 × missed + played totals |
| `Scoring.CountMissedWeeks` | src/utils/scoring.ts:27-36 | the loop counts the missed weeks, between 0 and n |
| `Scoring.IsPlayerDisqualified` | src/utils/scoring.ts:39-41 | disqualified exactly when fewer than 3 of the 6 weeks were played, that is, more than 3 missed |
| `Scoring.GetWeeklyScoresArray` | src/utils/scoring.ts:44-51 | six slots, each the week's submitted total or null, with as many nulls as missed weeks |
| `Scoring.NoRoundsSeason` | src/utils/scoring.ts:13-36 | with no rounds every week is missed and the total is 63·n |
| `Scoring.NoRoundsDisqualified` | src/utils/scoring.ts:39-41 | with no rounds: total 378, six misses, disqualified |
| `Scoring.AllPlayedNoneMissed` | src/utils/scoring.ts:13-36 | when every week is submitted nothing is missed, and the total is the sum of the played rounds |
| `Scoring.DisqualificationBoundary` | src/utils/scoring.ts:39-41 | three misses are not a disqualification, four are |
| `Scoring.FindWeekReordered` | src/utils/scoring.ts:16 | with each week at most once, reordering the rounds does not change what `find` returns |
| `Scoring.SeasonReordered` | src/utils/scoring.ts:13-36 | with each week at most once, the season total and the missed count ignore the order |
| `Scoring.WeeklyScoresReordered` | src/utils/scoring.ts:44-51 | with each week at most once, the score array ignores the order |
| `Scoring.DuplicateWeekOrderMatters` | src/utils/scoring.ts:16-21 | with two rounds for one week, order matters: the same two rounds total 40 or 63 |
| `Scorecard.ZeroScores` | src/components/ScoreEntry.tsx:12-14 | the fresh form holds holes 1..9, all at 0 |
| `Scorecard.NineHoles` | src/components/ScoreEntry.tsx:43-46 | nine records numbered 1..9 in order, each with the map's strokes or 0 |
| `Scorecard.HoleMap` | src/components/CommissionerDashboard.tsx:13-16 | the loaded map's keys are exactly the card's hole numbers |
| `Scorecard.HoleMapDistinct` | src/components/CommissionerDashboard.tsx:13-16 | with distinct hole numbers each hole's strokes are found under its number |
| `Scorecard.LoadThenSave` | src/components/CommissionerDashboard.tsx:11-24 | loading a numbered card into the edit map and saving it unchanged sends the same card |
| `Scorecard.HoleSumIsRoundTotal` | src/components/ScoreEntry.tsx:56 | summing holes 1..n of the map equals the kernel's total of the first n records |
| `Scorecard.DisplayedTotal` | src/components/ScoreEntry.tsx:56 | the sum of the form's nine entries; `DisplayedTotalIsRoundTotal` ties it to the card submitted |
| `Scorecard.DisplayedTotalIsRoundTotal` | src/components/ScoreEntry.tsx:56 | the form's displayed total equals the total of the card it submits |
| `LeagueStore.InitialPlayers` | src/store/leagueStore.ts:52-55 | two players, both commissioners, both paid, each with id `user-<username>`, usernames distinct |
| `LeagueStore.InitialUsers` | src/store/leagueStore.ts:45-48 | every seeded player has credentials under its username with its id |
| `LeagueStore.FindUserRound` | src/components/ScoreEntry.tsx:19 | signed out, no round (`currentUser?.id` matches no player id); signed in, the store's round for (user, week) |
| `LeagueStore.FindRound` | src/store/leagueStore.ts:142 | the lookup returns a round of that player and week, or none exactly when there is none |
| `LeagueStore.FindPlayer` | src/store/leagueStore.ts:62 | the lookup returns a player with that username, or none exactly when there is none |
| `LeagueStore.FindRoundUnique` | src/store/leagueStore.ts:142 | with one round per (player, week), the lookup finds that very round |
| `LeagueStore.NewRound` | src/store/leagueStore.ts:146-159 | id `round-<player>-<week>`, declared now, nine zero-stroke holes 1..9, total 0 (the kernel's total), not submitted or locked |
| `LeagueStore.DeclaredRounds` | src/store/leagueStore.ts:140-171 | the old list is a prefix; one round is appended exactly when none existed, and it is the new round; afterwards the round is found |
| `LeagueStore.SubmittedRounds` | src/store/leagueStore.ts:173-199 | same length; matching rounds take the card, its total, the photo, the time and both flags while keeping their identity; other rounds are unchanged |
| `LeagueStore.EditedRounds` | src/store/leagueStore.ts:219-234 | same length; matching rounds take the card and its total only; other rounds are unchanged |
| `LeagueStore.LockedRounds` | src/store/leagueStore.ts:236-244 | same length; matching rounds become locked and change in nothing else; other rounds are unchanged |
| `LeagueStore.ToggledBuyIn` | src/store/leagueStore.ts:132-138 | the player with that id flips `buyInPaid` and changes in nothing else; other players are unchanged |
| `LeagueStore.StartedWeeks` | src/store/leagueStore.ts:246-260 | the week is active afterwards; the active set gains exactly that week; no duplicates are introduced; the old list is a prefix |
| `LeagueStore.DeclareIdempotent` | src/store/leagueStore.ts:142-145 | declaring again leaves the list unchanged |
| `LeagueStore.NoMatchNoChange` | src/store/leagueStore.ts:173-244 | submit, edit and lock with no matching round change nothing |
| `LeagueStore.EditIdempotent` | src/store/leagueStore.ts:219-234 | applying the same edit twice is applying it once |
| `LeagueStore.EditToSameCardNoChange` | src/store/leagueStore.ts:219-234 | re-applying a round's own card leaves the whole list, totals included, unchanged |
| `LeagueStore.LockIdempotent` | src/store/leagueStore.ts:236-244 | locking twice is locking once |
| `LeagueStore.ToggleTwiceRestores` | src/store/leagueStore.ts:132-138 | toggling a buy-in twice restores the roster |
| `LeagueStore.StartWeekIdempotent` | src/store/leagueStore.ts:246-260 | starting a week twice is starting it once |
| `LeagueStore.ActionsKeepRoundsInvariant` | src/store/leagueStore.ts:140-244 | declare, submit, edit and lock keep every total equal to its stroke sum, every round declared, and one round per (player, week) |
| `LeagueStore.SubmitEditKeepLockedOnlyIfSubmitted` | src/store/leagueStore.ts:173-234 | declare, submit and edit keep "locked only if submitted" |
| `LeagueStore.LockSubmittedKeepsInvariant` | src/store/leagueStore.ts:236-244 | locking a submitted round keeps "locked only if submitted" |
| `LeagueStore.LockPendingBreaksInvariant` | src/store/leagueStore.ts:236-244 | the store does not check: locking a pending round breaks "locked only if submitted" |
| `LeagueStore.RegisterThenLogin` | src/store/leagueStore.ts:59-107 | after a registration's updates, the same username and password log in |
| `LeagueStore.RegisterRefusals` | src/store/leagueStore.ts:78-81 | `register` refuses every name a plain object inherits (`toString`, `__proto__`, …) and every registered name; an accepted name is in neither the table nor the roster |
| `LeagueStore.League.constructor` | src/store/leagueStore.ts:45-57 | no user, no rounds, no active weeks, the two seeded players and their credentials, no cloud writes |
| `LeagueStore.League.Login` | src/store/leagueStore.ts:59-76 | succeeds exactly when the password matches and a player has the username; then signs that player in; otherwise nothing changes |
| `LeagueStore.League.Register` | src/store/leagueStore.ts:78-107 | succeeds exactly when `users[username]` is not truthy (neither registered nor an inherited object key) and no player has the username; on failure nothing changes; on success it appends an unpaid non-commissioner `user-<name>`, records the credentials and signs in |
| `LeagueStore.League.Logout` | src/store/leagueStore.ts:109-111 | signs out |
| `LeagueStore.League.AddPlayer` | src/store/leagueStore.ts:113-130 | records the credentials, appends the unpaid player and issues one player write |
| `LeagueStore.League.ToggleBuyIn` | src/store/leagueStore.ts:132-138 | the roster becomes the toggled roster; nothing else changes |
| `LeagueStore.League.DeclareRound` | src/store/leagueStore.ts:140-171 | the rounds become the declared list; one round write is issued exactly when a round was appended |
| `LeagueStore.League.SubmitRound` | src/store/leagueStore.ts:173-200 | the rounds become the submitted list; the first updated round is written to the cloud |
| `LeagueStore.League.UpdateRound` | src/store/leagueStore.ts:202-217 | the rounds become the edited list |
| `LeagueStore.League.EditScore` | src/store/leagueStore.ts:219-234 | the rounds become the edited list; no cloud write |
| `LeagueStore.League.LockScore` | src/store/leagueStore.ts:236-244 | the rounds become the locked list |
| `LeagueStore.League.StartWeek` | src/store/leagueStore.ts:246-264 | the week becomes active, no other week's activity changes, and a week write is issued only if it was inactive |
| `LeagueStore.League.IsWeekActive` | src/store/leagueStore.ts:262-264 | `activeWeeks.includes(week)`; `StartWeek` makes it true for its week and leaves every other week's answer |
| `Leaderboard.PlayerRounds` | src/components/LeaderBoard.tsx:17 | the filter keeps only that player's rounds, and is no longer than the list |
| `Leaderboard.PlayerRoundsMembers` | src/components/LeaderBoard.tsx:17 | a round is kept exactly when it is in the list and belongs to the player |
| `Leaderboard.FindInPlayerRounds` | src/components/LeaderBoard.tsx:17-21 | filtering by player and then finding the week finds the store's round for (player, week) |
| `Leaderboard.WeeklyEntryFor` | src/components/LeaderBoard.tsx:19-27 | the score is the (first) round's total when submitted, 63 otherwise, as the kernel scores the week; `submitted` agrees |
| `Leaderboard.SeasonEntryFor` | src/components/LeaderBoard.tsx:28-53 | the week loop yields six slots whose nulls are the missed weeks, total = 63 × missed + played totals, disqualified iff missed > 2 |
| `Leaderboard.Entries` | src/components/LeaderBoard.tsx:15-55 | one entry per player, in player order |
| `Leaderboard.ScoreKey` | src/components/LeaderBoard.tsx:56 | the comparator's key `score ?? 999`: the weekly score, 999 for every season entry |
| `Leaderboard.RankKey` | src/components/LeaderBoard.tsx:56 | the key the ranking is meant to use: the weekly score, or the season total |
| `Leaderboard.Insert` | src/components/LeaderBoard.tsx:56 | insertion adds exactly the element |
| `Leaderboard.InsertSorted` | src/components/LeaderBoard.tsx:56 | insertion keeps a sequence sorted |
| `Leaderboard.SortBy` | src/components/LeaderBoard.tsx:56 | the sort is ascending by the key and a permutation of its input |
| `Leaderboard.SortByEqualKeys` | src/components/LeaderBoard.tsx:56 | when every key is equal the stable sort keeps the input order |
| `Leaderboard.SortByAgreeingKeys` | src/components/LeaderBoard.tsx:56 | two keys that agree on every element sort identically |
| `Leaderboard.AsWrittenBoard` | src/components/LeaderBoard.tsx:14-57 | the board as written: one entry per player, a permutation of the entries, ascending by `score ?? 999` |
| `Leaderboard.RankedBoard` | src/components/LeaderBoard.tsx:14-57 | the corrected board: one entry per player, a permutation of the entries, ascending by score or total |
| `Leaderboard.ComputeEntry` | src/components/LeaderBoard.tsx:16-54 | one player's entry is the weekly entry for a nonzero week and the season entry otherwise |
| `Leaderboard.BuildEntries` | src/components/LeaderBoard.tsx:15-55 | the map yields exactly one entry per player, in player order |
| `Leaderboard.GenerateLeaderboard` | src/components/LeaderBoard.tsx:14-57 | the board is the corrected ranking (weekly by score, season by total): one entry per player, a permutation of the entries |
| `Leaderboard.WeeklyBoardSorted` | src/components/LeaderBoard.tsx:14-57 | the weekly board has one weekly entry per player, ascending by score (the correction leaves it as written, see `RankedWeeklyBoardUnchanged`) |
| `Leaderboard.SeasonBoardKeepsPlayerOrder` | src/components/LeaderBoard.tsx:46-56 | as written, the season board is the entries in player order |
| `Leaderboard.SeasonBoardMisranks` | src/components/LeaderBoard.tsx:46-56 | hence a player with the higher season total can be listed first |
| `Leaderboard.SeasonBoardMisranksExample` | src/components/LeaderBoard.tsx:46-56 | Jeb with no rounds (378) is ranked above Alex with one 40-stroke week (355) |
| `Leaderboard.RankedSeasonBoardByTotal` | src/components/LeaderBoard.tsx:56 | the corrected season board is ascending by total and lists every player once |
| `Leaderboard.RankedWeeklyBoardUnchanged` | src/components/LeaderBoard.tsx:56 | on the weekly board the correction changes nothing |
| `Leaderboard.RankRows` | src/components/LeaderBoard.tsx:110-112 | the rank is position + 1, so tied scores get consecutive ranks |
| `Leaderboard.WeeksCompletedInRange` | src/components/LeaderBoard.tsx:120 | "weeks completed" is 6 − missed, lies in [0, 6] and is the number of weeks played |
| `Leaderboard.DisqualificationDisagreement` | src/components/LeaderBoard.tsx:52 | the board's flag (> 2) and the kernel's (> 3) disagree exactly at three missed weeks |
| `Leaderboard.View` | src/components/LeaderBoard.tsx:65-73 | the weekly table shows only for an active week; the season table only once some week is active |
| `ScoreEntry.ScoreChanged` | src/components/ScoreEntry.tsx:22-27 | other holes never change; a stored value lies in [0, 20]; an empty input stores 0; otherwise the old value stays |
| `ScoreEntry.ScoreChangeByNumber` | src/components/ScoreEntry.tsx:22-27 | typing n stores n exactly when 0 ≤ n ≤ 20, and leaves the card unchanged otherwise |
| `ScoreEntry.ScoreChangeKeepsForm` | src/components/ScoreEntry.tsx:12-27 | every change keeps holes 1..9, each within [0, 20] |
| `ScoreEntry.AllHolesFilled` | src/components/ScoreEntry.tsx:29 | every hole holds a positive score; the fresh form fails it (`FreshFormNotFilled`) |
| `ScoreEntry.FreshFormNotFilled` | src/components/ScoreEntry.tsx:12-29 | the all-zero form is valid and is not filled |
| `ScoreEntry.FilledCardBounds` | src/components/ScoreEntry.tsx:29-48 | a filled form sends nine holes of 1..20 strokes, 9..180 in all |
| `ScoreEntry.Submission` | src/components/ScoreEntry.tsx:40-48 | nothing is sent without a user; otherwise nine holes 1..9 with the form's strokes are sent for the user and week, and an empty photo URL is sent as undefined |
| `ScoreEntry.SubmissionReloads` | src/components/ScoreEntry.tsx:43-46 | loading the submitted card back into a map gives the form's scores |
| `ScoreEntry.View` | src/components/ScoreEntry.tsx:58-77 | the form is offered exactly when the user's round for the week is declared and not submitted; the warning shows exactly when there is no declared round |
| `ScoreEntry.SubmittedFormClosed` | src/components/ScoreEntry.tsx:58-77 | after the submission the week shows as already submitted |
| `ScoreEntry.WeekAfterClicks` | src/components/ScoreEntry.tsx:58-93 | as written, the week shown after a series of week-button clicks is the start week or one clicked; a click lands only in the Form view |
| `ScoreEntry.ClosedViewKeepsWeek` | src/components/ScoreEntry.tsx:58-93 | as written, once the shown week is not the form, no click changes it |
| `ScoreEntry.FreshFormStuckOnWeekOne` | src/components/ScoreEntry.tsx:11-93 | as written, a player whose week 1 is undeclared or submitted stays on week 1 and never sees the form |
| `ScoreEntry.SecondWeekUnreachableExample` | src/components/ScoreEntry.tsx:11-93 | Alex, with week 1 submitted and week 2 declared, is shown week 1's "already submitted" whatever the clicks, although week 2 would show the form |
| `ScoreEntry.WeekAfterClicksCorrected` | src/components/ScoreEntry.tsx:83-93 | with the selector shown in every view, the week is the last one clicked |
| `ScoreEntry.CorrectedSelectorReachesEveryWeek` | src/components/ScoreEntry.tsx:83-93 | with the corrected selector, from any start week and after any earlier clicks, one click on a declared, unsubmitted week shows its form |
| `ScoreEntry.ScoreEntryForm.constructor` | src/components/ScoreEntry.tsx:11-17 | week 1, all-zero holes, no photo, not submitted, no confirmation |
| `ScoreEntry.ScoreEntryForm.SelectWeek` | src/components/ScoreEntry.tsx:83-93 | selects the week; callable only while the shown week is the form, where the buttons are rendered |
| `ScoreEntry.ScoreEntryForm.HandleScoreChange` | src/components/ScoreEntry.tsx:22-27 | in the Form view, the card becomes the changed card and stays within [0, 20] |
| `ScoreEntry.ScoreEntryForm.HandleSubmitClick` | src/components/ScoreEntry.tsx:31-38 | in the Form view, an unfilled card raises the alert and opens no confirmation; a filled card opens it |
| `ScoreEntry.ScoreEntryForm.HandleConfirmSubmit` | src/components/ScoreEntry.tsx:40-54 | signed out, nothing changes; signed in, the store receives the nine-hole card and writes the updated round to the cloud, the form shows submitted and the week is reported |
| `ScoreEntry.ScoreEntryForm.Total` | src/components/ScoreEntry.tsx:56 | the displayed total is the kernel's total of the card, within [0, 180] |
| `ScoreEntry.FormTotalBounds` | src/components/ScoreEntry.tsx:56 | a valid form's card totals between 0 and 180 |
| `Commissioner.EncodeEditKey` | src/components/CommissionerDashboard.tsx:12 | the key starts with the player id and a '-', and the rest parses back to the week |
| `Commissioner.ParseEditKeyAsWritten` | src/components/CommissionerDashboard.tsx:197-198 | as written, the player id read back holds no '-' and is a prefix of the key |
| `Commissioner.EditKeyAsWrittenPlainId` | src/components/CommissionerDashboard.tsx:197-198 | as written, a key round-trips when the player id holds no '-' |
| `Commissioner.EditKeyAsWrittenLosesStoreId` | src/components/CommissionerDashboard.tsx:197-198 | as written, the key of `user-<name>` reads back as player "user" with the username parsed as the week |
| `Commissioner.EditKeyAsWrittenExample` | src/components/CommissionerDashboard.tsx:197-198 | the key `user-alex-1` reads back as player "user", week NaN |
| `Commissioner.SaveAsWrittenEditsNothing` | src/components/CommissionerDashboard.tsx:196-199 | as written, saving an edit of a store round `user-<name>` whose username holds no '-' edits no round |
| `Commissioner.ParseEditKey` | src/components/CommissionerDashboard.tsx:197-198 | the corrected parse reads the player id as a prefix of the key |
| `Commissioner.EditKeyRoundTrip` | src/components/CommissionerDashboard.tsx:197-198 | the corrected parse gives back the player id and week of every key with a non-negative week |
| `Commissioner.EditInput` | src/components/CommissionerDashboard.tsx:184 | non-numeric input reads as 0 |
| `Commissioner.EditInputNoClamp` | src/components/CommissionerDashboard.tsx:176-186 | any typed number is stored as is, including numbers outside [0, 20] |
| `Commissioner.StartWeekButtons` | src/components/CommissionerDashboard.tsx:44-60 | a "Start Week" button shows for exactly the weeks 1..6 that are not active |
| `Commissioner.StartWeekRemovesButton` | src/components/CommissionerDashboard.tsx:44-60 | starting a week removes its button and leaves the others |
| `Commissioner.ManagedPlayers` | src/components/CommissionerDashboard.tsx:76 | the tables list exactly the non-commissioner players |
| `Commissioner.InitialTablesEmpty` | src/components/CommissionerDashboard.tsx:76 | with the seeded players both tables are empty |
| `Commissioner.WeekRounds` | src/components/CommissionerDashboard.tsx:33 | the week filter keeps only rounds of that week, and is no longer than the list |
| `Commissioner.WeekRoundsMembers` | src/components/CommissionerDashboard.tsx:33 | a round is kept exactly when it is in the list and is of that week |
| `Commissioner.FindByPlayer` | src/components/CommissionerDashboard.tsx:125 | the row lookup returns a round of that player, or none exactly when there is none |
| `Commissioner.RowRoundIsFindRound` | src/components/CommissionerDashboard.tsx:125 | the row's round is the store's round for (player, selected week) |
| `Commissioner.Row` | src/components/CommissionerDashboard.tsx:124-161 | the status is Not Declared without a round, Submitted if submitted, Pending otherwise; the score shows only when submitted; Edit shows for submitted rows not being edited; Lock shows only with Edit and when unlocked |
| `Commissioner.LockFromRowKeepsInvariant` | src/components/CommissionerDashboard.tsx:151-157 | locking from a row that offers Lock keeps "locked only if submitted" |
| `Commissioner.Dashboard.constructor` | src/components/CommissionerDashboard.tsx:7-9 | week 1, no edit in progress, empty edit map |
| `Commissioner.Dashboard.SelectWeek` | src/components/CommissionerDashboard.tsx:105 | selects the week |
| `Commissioner.Dashboard.HandleEditClick` | src/components/CommissionerDashboard.tsx:11-18 | the `forEach` loop loads the edit map keyed by hole number; the key is `<player>-<week>`; a numbered card saves back unchanged |
| `Commissioner.Dashboard.HandleEditInput` | src/components/CommissionerDashboard.tsx:181-185 | the hole takes the normalised input; other holes keep theirs |
| `Commissioner.Dashboard.HandleSaveEdit` | src/components/CommissionerDashboard.tsx:20-27 | the store edits with nine holes 1..9 (a missing hole as 0), and the modal closes |
| `Commissioner.Dashboard.SaveClick` | src/components/CommissionerDashboard.tsx:196-199 | with the corrected parse, Save edits the round named by the key; a key without a week edits nothing; the modal closes |
| `Commissioner.Dashboard.CancelEdit` | src/components/CommissionerDashboard.tsx:205 | the modal closes |
| `Commissioner.EditThenSaveKeepsRounds` | src/components/CommissionerDashboard.tsx:11-27 | Edit then Save unchanged targets the clicked round and leaves every round as it was |
| `RoundDeclaration.IsDeclared` | src/components/RoundDeclaration.tsx:14-15 | the signed-in user's round for the week exists and is declared; `View` shows the declare button exactly when it is not and the week is active |
| `RoundDeclaration.View` | src/components/RoundDeclaration.tsx:47-61 | the declare button shows exactly for an active, undeclared week; an inactive week shows the warning whatever its state |
| `RoundDeclaration.WeekOptions` | src/components/RoundDeclaration.tsx:39-43 | weeks 1..6 in order, each marked open exactly when active |
| `RoundDeclaration.HandleDeclare` | src/components/RoundDeclaration.tsx:18-23 | signed out, nothing changes; signed in, the store declares for (user, week), writes the new round to the cloud only if one was appended, and the week is reported |
| `RoundDeclaration.DeclareFromButton` | src/components/RoundDeclaration.tsx:14-23 | declaring from the button appends exactly the new round, after which the week shows as declared |
| `Login.RegistrationError` | src/components/Login.tsx:42-55 | an empty field is reported first, then differing passwords, then a password under 4 UTF-16 code units; no error exactly when all pass |
| `Login.LoginForm.constructor` | src/components/Login.tsx:10-18 | login mode, all fields and messages empty |
| `Login.LoginForm.HandleLogin` | src/components/Login.tsx:21-35 | an accepted login shows success and signs in; a failed one shows the error, clears the password and leaves the user |
| `Login.LoginForm.HandleRegister` | src/components/Login.tsx:37-65 | a failed check shows its message and leaves the store alone; otherwise a free username gets its credentials and an unpaid player and is signed in, after which the same username and password log in; a taken one shows "Username already exists"; rounds, active weeks and cloud writes never change |
| `Login.LoginForm.ToggleMode` | src/components/Login.tsx:156-165 | the mode flips and all five fields and both messages are cleared |
| `Login.RegisteredCanLogIn` | src/components/Login.tsx:37-65 | a registration the form lets through can log in with the same username and password |

## Left out

- Firestore persistence and subscriptions, Firebase Auth, the seeding script and `App.tsx` are not part of this model. The store's cloud calls are a ghost log of the writes issued (`cloudWrites`). Their failures are logged and dropped, which the model leaves out.
- `isSubmissionDeadlinePassed` reads the wall clock. The store's `new Date().toISOString()` timestamps become a `now` parameter.
- `LeagueStore.League.DeclareRound`: models the append that the optimistic update describes. The source calls `set` from inside a `set` updater and then returns the pre-call state. How the two compose depends on the state library, which is not shown here.
- `Strings.Utf16Length` counts the code units of well-formed text. A JavaScript string may hold a lone surrogate, which a Dafny string cannot.
- `LeagueStore.League.AddPlayer` records credentials under any name. Assigning `users["__proto__"]` in JavaScript replaces the table's prototype instead of adding a key; the map model adds a key.
- `Strings.ParseInt` models `parseInt` as an optional sign plus the longest decimal digit prefix. It does not model whitespace trimming, the `0x` prefix, or floating-point input. Numbers are unbounded integers; JavaScript doubles, `NaN` and infinities beyond "not a number" are not modelled.
- A week the commissioner's Save parses as NaN matches no round. The model skips the store call instead of calling `editScore` with NaN, which has the same effect on the rounds.
- The edit modal's running total and the score-entry confirmation preview are rendering only.
- Modal visibility, `alert`, `setTimeout` and the deferred `onSubmit`/`onSuccess` callbacks are left out. The reported week stands in for the callback.
- `Leaderboard.SortBy`: stability is proved only where the board needs it: equal keys keep the input order, and agreeing keys give the same order. A general stability statement is not proved.
- `ScoreEntry.ScoreEntryForm.HandleScoreChange` requires a hole in 1..9, the only holes the form renders.
- The unused `WeeklyLeaderboard` and `SeasonLeaderboard` interfaces of `src/types/index.ts` are not modelled.
- The model follows the code as it stands:
  - `submitRound` checks neither the declaration, a previous submission, nor the stroke ranges. Those checks live only in the score form.
  - `editScore`, `lockScore` and `toggleBuyIn` issue no cloud write.
  - Disqualification uses `> 3` in the kernel and `> 2` on the leaderboard. Both are modelled, and `Leaderboard.DisqualificationDisagreement` shows where they differ.

## Findings

| source | as written | input that shows it | evidently intended | confidence | as-written member | corrected member |
|---|---|---|---|---|---|---|
| src/components/CommissionerDashboard.tsx:197 | the edit key `${playerId}-${week}` is read back with `split('-')`, keeping the first two pieces | the store's id `user-alex`, week 1: the key `user-alex-1` reads back as player "user", week NaN, and Save edits no round | Save edits the round whose Edit button was clicked | high (not executed) | `Commissioner.ParseEditKeyAsWritten`, `Commissioner.EditKeyAsWrittenExample`, `Commissioner.SaveAsWrittenEditsNothing` | `Commissioner.ParseEditKey`, `Commissioner.EditKeyRoundTrip`, `Commissioner.Dashboard.SaveClick` |
| src/components/LeaderBoard.tsx:56 | the sort compares `a.score ?? 999`, and season entries have no `score`, so every key is 999 | players [Jeb with no rounds, Alex with one submitted 40-stroke week]: Jeb (378) is ranked 1st above Alex (355) | the season board ascends by `totalScore` | high (not executed) | `Leaderboard.AsWrittenBoard`, `Leaderboard.SeasonBoardKeepsPlayerOrder`, `Leaderboard.SeasonBoardMisranksExample` | `Leaderboard.GenerateLeaderboard`, `Leaderboard.RankedSeasonBoardByTotal` |
| src/components/ScoreEntry.tsx:83-93 | the week buttons are rendered only with the form, below the early returns for an undeclared or submitted week, and the component mounts on week 1 | Alex has week 1 submitted and week 2 declared: the score tab shows week 1's "already submitted" and no week buttons, so week 2's scores cannot be entered | the week selector is shown in every view, so any declared week can be brought up | high (not executed) | `ScoreEntry.ScoreEntryForm.SelectWeek`, `ScoreEntry.FreshFormStuckOnWeekOne`, `ScoreEntry.SecondWeekUnreachableExample` | `ScoreEntry.WeekAfterClicksCorrected`, `ScoreEntry.CorrectedSelectorReachesEveryWeek` |
