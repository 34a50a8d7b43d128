// The leaderboard projection of src/components/LeaderBoard.tsx: one entry per
// player, either for one week (score or the 63-stroke penalty) or for the
// season (weekly scores, total, missed weeks, disqualification), sorted by
// the comparator `(a.score ?? 999) - (b.score ?? 999)` and ranked by position.
module Leaderboard {
  import opened Types
  import Scoring
  import LeagueStore

  const TOTAL_WEEKS: int := 6
  const MISSED_PENALTY: int := 63
  /** The comparator's stand-in for a missing `score` field. */
  const NO_SCORE_KEY: int := 999

  datatype BoardEntry =
    | WeeklyEntry(playerId: string, username: string, score: int, submitted: bool)
    | SeasonEntry(playerId: string, username: string, totalScore: int,
                  weeklyScores: seq<Option<int>>, missedWeeks: int, disqualified: bool)

  /** `weekNumber` as a JavaScript condition: absent or 0 selects the season board. */
  predicate IsWeekly(weekNumber: Option<int>)
  {
    weekNumber.Some? && weekNumber.value != 0
  }

  /** `rounds.filter((r) => r.playerId === playerId)` */
  function PlayerRounds(rounds: seq<WeeklyRound>, playerId: string): (r: seq<WeeklyRound>)
    ensures |r| <= |rounds|
    ensures forall i :: 0 <= i < |r| ==> r[i].playerId == playerId
  {
    if |rounds| == 0 then []
    else (if rounds[0].playerId == playerId then [rounds[0]] else []) + PlayerRounds(rounds[1..], playerId)
  }

  /** The filter keeps exactly the rounds with that player: none lost, none added. */
  lemma {:induction false} PlayerRoundsMembers(rounds: seq<WeeklyRound>, playerId: string)
    ensures forall x :: x in PlayerRounds(rounds, playerId) <==> x in rounds && x.playerId == playerId
  {
    if |rounds| > 0 {
      PlayerRoundsMembers(rounds[1..], playerId);
      assert rounds == [rounds[0]] + rounds[1..];
    }
  }

  /** Filtering by player and then finding the week finds the store's round for (player, week). */
  lemma {:induction false} FindInPlayerRounds(rounds: seq<WeeklyRound>, playerId: string, week: int)
    ensures Scoring.FindWeek(PlayerRounds(rounds, playerId), week) == LeagueStore.FindRound(rounds, playerId, week)
  {
    if |rounds| > 0 {
      FindInPlayerRounds(rounds[1..], playerId, week);
      var tail := PlayerRounds(rounds[1..], playerId);
      if rounds[0].playerId == playerId {
        assert PlayerRounds(rounds, playerId) == [rounds[0]] + tail;
        assert ([rounds[0]] + tail)[1..] == tail;
      } else {
        assert PlayerRounds(rounds, playerId) == tail;
      }
    }
  }

  /** The weekly branch of `generateLeaderboard`. */
  function WeeklyEntryFor(player: Player, rounds: seq<WeeklyRound>, week: int): (e: BoardEntry)
    ensures e.WeeklyEntry? && e.playerId == player.id && e.username == player.username
    ensures e.submitted <==> match LeagueStore.FindRound(rounds, player.id, week)
                             case None => false
                             case Some(r) => r.submitted
    ensures e.score == match LeagueStore.FindRound(rounds, player.id, week)
                       case Some(r) => if r.submitted then r.totalScore else MISSED_PENALTY
                       case None => MISSED_PENALTY
    ensures e.score == Scoring.WeekScore(PlayerRounds(rounds, player.id), week)
  {
    var weekRound := Scoring.FindWeek(PlayerRounds(rounds, player.id), week);
    FindInPlayerRounds(rounds, player.id, week);
    WeeklyEntry(player.id, player.username,
                if weekRound.Some? && weekRound.value.submitted then weekRound.value.totalScore else MISSED_PENALTY,
                weekRound.Some? && weekRound.value.submitted)
  }

  /** What the season branch computes for a player, stated with the kernel's functions. */
  function SeasonEntryOf(player: Player, playerRounds: seq<WeeklyRound>): BoardEntry
  {
    var missed := Scoring.MissedWeeks(playerRounds, TOTAL_WEEKS);
    SeasonEntry(player.id, player.username, Scoring.SeasonTotal(playerRounds, TOTAL_WEEKS),
                Scoring.WeeklyScores(playerRounds, TOTAL_WEEKS), missed, missed > 2)
  }

  /** The season branch of `generateLeaderboard`: one pass over weeks 1..6. */
  method SeasonEntryFor(player: Player, playerRounds: seq<WeeklyRound>) returns (e: BoardEntry)
    ensures e == SeasonEntryOf(player, playerRounds)
    ensures |e.weeklyScores| == TOTAL_WEEKS && e.missedWeeks == Scoring.NullCount(e.weeklyScores)
    ensures 0 <= e.missedWeeks <= TOTAL_WEEKS
    ensures e.totalScore == MISSED_PENALTY * e.missedWeeks + Scoring.PlayedTotal(playerRounds, TOTAL_WEEKS)
    ensures e.disqualified <==> e.missedWeeks > 2
  {
    var totalScore := 0;
    var weeklyScores: seq<Option<int>> := [];
    var missedWeeks := 0;
    var week := 1;
    while week <= TOTAL_WEEKS
      invariant 1 <= week <= TOTAL_WEEKS + 1
      invariant totalScore == Scoring.SeasonTotal(playerRounds, week - 1)
      invariant |weeklyScores| == week - 1
      invariant forall i :: 0 <= i < |weeklyScores| ==> weeklyScores[i] == Scoring.WeekEntry(playerRounds, i + 1)
      invariant missedWeeks == Scoring.MissedWeeks(playerRounds, week - 1)
    {
      var round := Scoring.FindWeek(playerRounds, week);
      if round.None? || !round.value.submitted {
        totalScore := totalScore + MISSED_PENALTY;
        weeklyScores := weeklyScores + [None];
        missedWeeks := missedWeeks + 1;
      } else {
        totalScore := totalScore + round.value.totalScore;
        weeklyScores := weeklyScores + [Some(round.value.totalScore)];
      }
      week := week + 1;
    }
    assert weeklyScores == Scoring.WeeklyScores(playerRounds, TOTAL_WEEKS);
    Scoring.WeeklyScoresNullCount(playerRounds, TOTAL_WEEKS);
    Scoring.SeasonTotalSplit(playerRounds, TOTAL_WEEKS);
    e := SeasonEntry(player.id, player.username, totalScore, weeklyScores, missedWeeks, missedWeeks > 2);
  }

  /** The entry the `players.map` callback builds for one player. */
  function EntryFor(player: Player, rounds: seq<WeeklyRound>, weekNumber: Option<int>): BoardEntry
  {
    if IsWeekly(weekNumber) then WeeklyEntryFor(player, rounds, weekNumber.value)
    else SeasonEntryOf(player, PlayerRounds(rounds, player.id))
  }

  /** The entries before sorting, in player order. */
  function Entries(players: seq<Player>, rounds: seq<WeeklyRound>, weekNumber: Option<int>): (es: seq<BoardEntry>)
    ensures |es| == |players|
    ensures forall i :: 0 <= i < |es| ==> es[i] == EntryFor(players[i], rounds, weekNumber)
  {
    seq(|players|, i requires 0 <= i < |players| => EntryFor(players[i], rounds, weekNumber))
  }

  // ---------------------------------------------------------------------------
  // Sorting: `Array.prototype.sort` is stable, so sorting by a numeric key with
  // the comparator `key(a) - key(b)` is the stable sort by that key.

  /** The source's comparator key: `a.score ?? 999`; season entries have no `score`. */
  function ScoreKey(e: BoardEntry): int
  {
    if e.WeeklyEntry? then e.score else NO_SCORE_KEY
  }

  /** The key a ranking is meant to use: the weekly score or the season total. */
  function RankKey(e: BoardEntry): int
  {
    if e.WeeklyEntry? then e.score else e.totalScore
  }

  predicate SortedBy(s: seq<BoardEntry>, key: BoardEntry -> int)
  {
    forall i, j :: 0 <= i < j < |s| ==> key(s[i]) <= key(s[j])
  }

  /** Inserts `x` before the first element with a larger or equal key. */
  function Insert(x: BoardEntry, s: seq<BoardEntry>, key: BoardEntry -> int): (r: seq<BoardEntry>)
    ensures multiset(r) == multiset(s) + multiset{x}
    ensures |r| == |s| + 1
  {
    if |s| == 0 || key(x) <= key(s[0]) then [x] + s
    else
      assert s == [s[0]] + s[1..];
      [s[0]] + Insert(x, s[1..], key)
  }

  /** Inserting into a sorted sequence keeps it sorted. */
  lemma {:induction false} InsertSorted(x: BoardEntry, s: seq<BoardEntry>, key: BoardEntry -> int)
    requires SortedBy(s, key)
    ensures SortedBy(Insert(x, s, key), key)
  {
    if |s| > 0 && key(s[0]) < key(x) {
      InsertSorted(x, s[1..], key);
      var rest := Insert(x, s[1..], key);
      forall i | 0 <= i < |rest| ensures key(s[0]) <= key(rest[i]) {
        assert rest[i] in multiset(s[1..]) + multiset{x};
        if rest[i] != x {
          assert rest[i] in s[1..];
        }
      }
    }
  }

  /** Stable insertion sort by `key`: ascending, a permutation of the input. */
  function SortBy(s: seq<BoardEntry>, key: BoardEntry -> int): (r: seq<BoardEntry>)
    ensures SortedBy(r, key)
    ensures multiset(r) == multiset(s)
    ensures |r| == |s|
  {
    if |s| == 0 then []
    else
      assert s == [s[0]] + s[1..];
      InsertSorted(s[0], SortBy(s[1..], key), key);
      Insert(s[0], SortBy(s[1..], key), key)
  }

  /** When every key is equal the stable sort keeps the input order. */
  lemma {:induction false} SortByEqualKeys(s: seq<BoardEntry>, key: BoardEntry -> int, c: int)
    requires forall i :: 0 <= i < |s| ==> key(s[i]) == c
    ensures SortBy(s, key) == s
  {
    if |s| > 0 {
      SortByEqualKeys(s[1..], key, c);
      assert s == [s[0]] + s[1..];
    }
  }

  lemma {:induction false} InsertAgreeingKeys(x: BoardEntry, s: seq<BoardEntry>, k1: BoardEntry -> int, k2: BoardEntry -> int)
    requires SortedBy(s, k1) && SortedBy(s, k2)
    requires k1(x) == k2(x) && forall i :: 0 <= i < |s| ==> k1(s[i]) == k2(s[i])
    ensures Insert(x, s, k1) == Insert(x, s, k2)
  {
    if |s| > 0 && k1(s[0]) < k1(x) {
      InsertAgreeingKeys(x, s[1..], k1, k2);
    }
  }

  /** Sorting by two keys that agree on every element gives the same order. */
  lemma {:induction false} SortByAgreeingKeys(s: seq<BoardEntry>, k1: BoardEntry -> int, k2: BoardEntry -> int)
    requires forall i :: 0 <= i < |s| ==> k1(s[i]) == k2(s[i])
    ensures SortBy(s, k1) == SortBy(s, k2)
  {
    if |s| > 0 {
      SortByAgreeingKeys(s[1..], k1, k2);
      var t := SortBy(s[1..], k1);
      forall i | 0 <= i < |t| ensures k1(t[i]) == k2(t[i]) {
        assert t[i] in multiset(s[1..]);
      }
      InsertAgreeingKeys(s[0], t, k1, k2);
    }
  }

  // ---------------------------------------------------------------------------
  // The board

  /** The board as written: the entries sorted with the `score ?? 999` comparator. */
  function AsWrittenBoard(players: seq<Player>, rounds: seq<WeeklyRound>, weekNumber: Option<int>): (board: seq<BoardEntry>)
    ensures |board| == |players| && multiset(board) == multiset(Entries(players, rounds, weekNumber))
    ensures SortedBy(board, ScoreKey)
  {
    SortBy(Entries(players, rounds, weekNumber), ScoreKey)
  }

  /** The board as evidently intended: weekly by score, season by total. */
  function RankedBoard(players: seq<Player>, rounds: seq<WeeklyRound>, weekNumber: Option<int>): (board: seq<BoardEntry>)
    ensures |board| == |players| && multiset(board) == multiset(Entries(players, rounds, weekNumber))
    ensures SortedBy(board, RankKey)
  {
    SortBy(Entries(players, rounds, weekNumber), RankKey)
  }

  /** One player's entry: the weekly branch, or the season pass over the player's rounds. */
  method ComputeEntry(player: Player, rounds: seq<WeeklyRound>, weekNumber: Option<int>) returns (entry: BoardEntry)
    ensures entry == EntryFor(player, rounds, weekNumber)
  {
    if IsWeekly(weekNumber) {
      entry := WeeklyEntryFor(player, rounds, weekNumber.value);
    } else {
      entry := SeasonEntryFor(player, PlayerRounds(rounds, player.id));
    }
  }

  /** The `players.map` of `generateLeaderboard`: one entry per player, in player order. */
  method BuildEntries(players: seq<Player>, rounds: seq<WeeklyRound>, weekNumber: Option<int>)
    returns (entries: seq<BoardEntry>)
    ensures entries == Entries(players, rounds, weekNumber)
  {
    entries := [];
    var i := 0;
    while i < |players|
      invariant 0 <= i <= |players|
      invariant |entries| == i
      invariant forall k :: 0 <= k < i ==> entries[k] == EntryFor(players[k], rounds, weekNumber)
    {
      var entry := ComputeEntry(players[i], rounds, weekNumber);
      entries := entries + [entry];
      i := i + 1;
    }
    assert |entries| == |Entries(players, rounds, weekNumber)|;
  }

  /** `generateLeaderboard`, ranking the season board by total (see `SeasonBoardKeepsPlayerOrder`). */
  method GenerateLeaderboard(players: seq<Player>, rounds: seq<WeeklyRound>, weekNumber: Option<int>)
    returns (board: seq<BoardEntry>)
    ensures board == RankedBoard(players, rounds, weekNumber)
    ensures |board| == |players|
    ensures multiset(board) == multiset(Entries(players, rounds, weekNumber))
  {
    var entries := BuildEntries(players, rounds, weekNumber);
    board := SortBy(entries, RankKey);
  }

  /** The weekly board: one entry per player, ascending by score. */
  lemma WeeklyBoardSorted(players: seq<Player>, rounds: seq<WeeklyRound>, week: int)
    requires week != 0
    ensures var board := RankedBoard(players, rounds, Some(week));
      && |board| == |players|
      && (forall i :: 0 <= i < |board| ==> board[i].WeeklyEntry?)
      && (forall i, j :: 0 <= i < j < |board| ==> board[i].score <= board[j].score)
  {
    var es := Entries(players, rounds, Some(week));
    var board := SortBy(es, RankKey);
    forall i | 0 <= i < |board| ensures board[i].WeeklyEntry? {
      assert board[i] in multiset(es);
    }
  }

  /**
   * The season board as written: every entry's key is 999, so the sort keeps
   * the player order whatever the totals.
   */
  lemma SeasonBoardKeepsPlayerOrder(players: seq<Player>, rounds: seq<WeeklyRound>)
    ensures AsWrittenBoard(players, rounds, None) == Entries(players, rounds, None)
  {
    SortByEqualKeys(Entries(players, rounds, None), ScoreKey, NO_SCORE_KEY);
  }

  /** The k-th season entry is the k-th player's, with that player's season total. */
  lemma SeasonEntryAt(players: seq<Player>, rounds: seq<WeeklyRound>, k: nat)
    requires k < |players|
    ensures var e := Entries(players, rounds, None)[k];
      && e.SeasonEntry? && e.playerId == players[k].id
      && e.totalScore == Scoring.SeasonTotal(PlayerRounds(rounds, players[k].id), TOTAL_WEEKS)
  {
    assert Entries(players, rounds, None)[k] == SeasonEntryOf(players[k], PlayerRounds(rounds, players[k].id));
  }

  /** So a player with the higher season total can be listed, and ranked, first. */
  lemma SeasonBoardMisranks(first: Player, second: Player, rounds: seq<WeeklyRound>)
    requires Scoring.SeasonTotal(PlayerRounds(rounds, first.id), TOTAL_WEEKS)
           > Scoring.SeasonTotal(PlayerRounds(rounds, second.id), TOTAL_WEEKS)
    ensures var board := AsWrittenBoard([first, second], rounds, None);
      && |board| == 2 && board[0].SeasonEntry? && board[1].SeasonEntry?
      && board[0].playerId == first.id && board[0].totalScore > board[1].totalScore
  {
    SeasonBoardKeepsPlayerOrder([first, second], rounds);
    SeasonEntryAt([first, second], rounds, 0);
    SeasonEntryAt([first, second], rounds, 1);
  }

  /** A concrete instance: Jeb, listed first with no rounds (378), ranks above Alex (40 + 5 * 63 = 355). */
  lemma SeasonBoardMisranksExample(jebPlayer: Player, alexPlayer: Player, alexWeek1: WeeklyRound)
    requires jebPlayer.id == "user-jeb" && alexPlayer.id == "user-alex"
    requires alexWeek1.playerId == "user-alex" && alexWeek1.week == 1
    requires alexWeek1.submitted && alexWeek1.totalScore == 40
    ensures var board := AsWrittenBoard([jebPlayer, alexPlayer], [alexWeek1], None);
      && |board| == 2 && board[0].SeasonEntry? && board[1].SeasonEntry?
      && board[0].totalScore == 378 && board[1].totalScore == 355
  {
    var pr := [alexWeek1];
    assert PlayerRounds(pr, jebPlayer.id) == [];
    assert PlayerRounds(pr, alexPlayer.id) == pr;
    Scoring.NoRoundsSeason(TOTAL_WEEKS);
    assert Scoring.WeekScore(pr, 1) == 40;
    assert Scoring.SeasonTotal(pr, 1) == 40;
    assert Scoring.SeasonTotal(pr, 2) == 103;
    assert Scoring.SeasonTotal(pr, 3) == 166;
    assert Scoring.SeasonTotal(pr, 4) == 229;
    assert Scoring.SeasonTotal(pr, 5) == 292;
    assert Scoring.SeasonTotal(pr, 6) == 355;
    SeasonBoardKeepsPlayerOrder([jebPlayer, alexPlayer], pr);
    var es := Entries([jebPlayer, alexPlayer], pr, None);
    assert es[0] == SeasonEntryOf(jebPlayer, []);
    assert es[1] == SeasonEntryOf(alexPlayer, pr);
  }

  predicate AllSeason(s: seq<BoardEntry>)
  {
    forall i :: 0 <= i < |s| ==> s[i].SeasonEntry?
  }

  lemma SeasonEntriesAllSeason(players: seq<Player>, rounds: seq<WeeklyRound>)
    ensures AllSeason(Entries(players, rounds, None))
  {
    var es := Entries(players, rounds, None);
    forall k | 0 <= k < |es| ensures es[k].SeasonEntry? {
      assert es[k] == SeasonEntryOf(players[k], PlayerRounds(rounds, players[k].id));
    }
  }

  lemma PermutationAllSeason(a: seq<BoardEntry>, b: seq<BoardEntry>)
    requires AllSeason(a) && multiset(a) == multiset(b)
    ensures AllSeason(b)
  {
    forall i | 0 <= i < |b| ensures b[i].SeasonEntry? {
      assert b[i] in multiset(a);
    }
  }

  /** The intended season board is ascending by total and lists every player once. */
  lemma RankedSeasonBoardByTotal(players: seq<Player>, rounds: seq<WeeklyRound>)
    ensures var board := RankedBoard(players, rounds, None);
      && |board| == |players|
      && multiset(board) == multiset(Entries(players, rounds, None))
      && AllSeason(board)
      && (forall i, j :: 0 <= i < j < |board| ==> board[i].totalScore <= board[j].totalScore)
  {
    var es := Entries(players, rounds, None);
    var board := RankedBoard(players, rounds, None);
    SeasonEntriesAllSeason(players, rounds);
    PermutationAllSeason(es, board);
    forall i, j | 0 <= i < j < |board| ensures board[i].totalScore <= board[j].totalScore {
      assert RankKey(board[i]) <= RankKey(board[j]);
    }
  }

  /** On the weekly board the correction changes nothing. */
  lemma RankedWeeklyBoardUnchanged(players: seq<Player>, rounds: seq<WeeklyRound>, week: int)
    requires week != 0
    ensures RankedBoard(players, rounds, Some(week)) == AsWrittenBoard(players, rounds, Some(week))
  {
    SortByAgreeingKeys(Entries(players, rounds, Some(week)), RankKey, ScoreKey);
  }

  // ---------------------------------------------------------------------------
  // Rendering

  datatype RankedRow = RankedRow(rank: int, entry: BoardEntry)

  /** Rows as rendered: rank is list position + 1, so tied scores get consecutive ranks. */
  function RankRows(board: seq<BoardEntry>): (rows: seq<RankedRow>)
    ensures |rows| == |board|
    ensures forall i :: 0 <= i < |rows| ==> rows[i].rank == i + 1 && rows[i].entry == board[i]
  {
    seq(|board|, i requires 0 <= i < |board| => RankedRow(i + 1, board[i]))
  }

  /** The "Weeks Completed" column. */
  function WeeksCompleted(e: BoardEntry): int
    requires e.SeasonEntry?
  {
    TOTAL_WEEKS - e.missedWeeks
  }

  lemma WeeksCompletedInRange(player: Player, playerRounds: seq<WeeklyRound>)
    ensures 0 <= WeeksCompleted(SeasonEntryOf(player, playerRounds)) <= TOTAL_WEEKS
    ensures WeeksCompleted(SeasonEntryOf(player, playerRounds)) == Scoring.PlayedWeeks(playerRounds, TOTAL_WEEKS)
  {
    Scoring.MissedPlusPlayed(playerRounds, TOTAL_WEEKS);
  }

  /** The board disqualifies at three misses, the kernel only at four: they disagree exactly at three. */
  lemma DisqualificationDisagreement(player: Player, playerRounds: seq<WeeklyRound>)
    ensures SeasonEntryOf(player, playerRounds).disqualified != Scoring.IsPlayerDisqualified(playerRounds)
        <==> Scoring.MissedWeeks(playerRounds, TOTAL_WEEKS) == 3
  {
  }

  /** What the component renders instead of, or as, the table. */
  datatype BoardView = WeekNotOpen(week: int) | SeasonNotOpen | WeeklyTable | SeasonTable

  function View(weekNumber: Option<int>, activeWeeks: seq<int>): (v: BoardView)
    ensures v.WeeklyTable? <==> IsWeekly(weekNumber) && weekNumber.value in activeWeeks
    ensures v.SeasonTable? <==> !IsWeekly(weekNumber) && |activeWeeks| > 0
  {
    if IsWeekly(weekNumber) && weekNumber.value !in activeWeeks then WeekNotOpen(weekNumber.value)
    else if !IsWeekly(weekNumber) && |activeWeeks| == 0 then SeasonNotOpen
    else if IsWeekly(weekNumber) then WeeklyTable
    else SeasonTable
  }
}
