// The scoring kernel of src/utils/scoring.ts: round totals, the season total
// with a 63-stroke penalty per missed week, the missed-week count, the
// disqualification rule and the per-week score array.
module Scoring {
  import opened Types

  const MISSED_ROUND_PENALTY: int := 63
  const TOTAL_WEEKS: int := 6
  const DISQUALIFICATION_MISSED_WEEKS: int := 3

  /** `calculateRoundTotal`: the left fold `reduce((sum, hole) => sum + hole.strokes, 0)`. */
  function RoundTotal(holes: seq<HoleScore>): int
  {
    if |holes| == 0 then 0 else RoundTotal(holes[..|holes| - 1]) + holes[|holes| - 1].strokes
  }

  /** The total of a scorecard split in two is the sum of the two totals. */
  lemma {:induction false} RoundTotalAppend(a: seq<HoleScore>, b: seq<HoleScore>)
    ensures RoundTotal(a + b) == RoundTotal(a) + RoundTotal(b)
  {
    if |b| > 0 {
      RoundTotalAppend(a, b[..|b| - 1]);
      assert (a + b)[..|a + b| - 1] == a + b[..|b| - 1];
    } else {
      assert a + b == a;
    }
  }

  /** A card whose strokes all lie in `[lo, hi]` totals between `lo` and `hi` per hole. */
  lemma {:induction false} RoundTotalBounds(holes: seq<HoleScore>, lo: int, hi: int)
    requires forall i :: 0 <= i < |holes| ==> lo <= holes[i].strokes <= hi
    ensures |holes| * lo <= RoundTotal(holes) <= |holes| * hi
  {
    if |holes| > 0 {
      RoundTotalBounds(holes[..|holes| - 1], lo, hi);
      assert (|holes| - 1) * lo + lo == |holes| * lo;
      assert (|holes| - 1) * hi + hi == |holes| * hi;
    }
  }

  /** `rounds.find((r) => r.week === week)`: the first round of that week. */
  function FindWeek(rounds: seq<WeeklyRound>, week: int): (r: Option<WeeklyRound>)
    ensures r.Some? ==> r.value in rounds && r.value.week == week
    ensures r.None? <==> forall i :: 0 <= i < |rounds| ==> rounds[i].week != week
  {
    if |rounds| == 0 then None
    else if rounds[0].week == week then Some(rounds[0])
    else FindWeek(rounds[1..], week)
  }

  /** Only the first round of a week is ever looked at. */
  lemma {:induction false} FindWeekFirst(rounds: seq<WeeklyRound>, week: int, k: nat)
    requires k < |rounds| && rounds[k].week == week
    requires forall j :: 0 <= j < k ==> rounds[j].week != week
    ensures FindWeek(rounds, week) == Some(rounds[k])
  {
    if k > 0 {
      FindWeekFirst(rounds[1..], week, k - 1);
    }
  }

  /** The week counts as played: its (first) round exists and is submitted. */
  predicate WeekSubmitted(rounds: seq<WeeklyRound>, week: int)
  {
    var r := FindWeek(rounds, week);
    r.Some? && r.value.submitted
  }

  /** What the week adds to the season total. */
  function WeekScore(rounds: seq<WeeklyRound>, week: int): int
  {
    if WeekSubmitted(rounds, week) then FindWeek(rounds, week).value.totalScore else MISSED_ROUND_PENALTY
  }

  /** What the score array shows for the week: the total, or null for a miss. */
  function WeekEntry(rounds: seq<WeeklyRound>, week: int): Option<int>
  {
    if WeekSubmitted(rounds, week) then Some(FindWeek(rounds, week).value.totalScore) else None
  }

  /** Sum of `WeekScore` over weeks 1..n. */
  function SeasonTotal(rounds: seq<WeeklyRound>, n: int): int
    decreases n
  {
    if n <= 0 then 0 else SeasonTotal(rounds, n - 1) + WeekScore(rounds, n)
  }

  /** Number of weeks among 1..n without a submitted round. */
  function MissedWeeks(rounds: seq<WeeklyRound>, n: int): (m: int)
    ensures 0 <= m
    ensures m <= if n < 0 then 0 else n
    decreases n
  {
    if n <= 0 then 0 else MissedWeeks(rounds, n - 1) + (if WeekSubmitted(rounds, n) then 0 else 1)
  }

  /** Number of weeks among 1..n with a submitted round. */
  function PlayedWeeks(rounds: seq<WeeklyRound>, n: int): int
    decreases n
  {
    if n <= 0 then 0 else PlayedWeeks(rounds, n - 1) + (if WeekSubmitted(rounds, n) then 1 else 0)
  }

  /** Sum of the submitted totals over weeks 1..n (misses add nothing). */
  function PlayedTotal(rounds: seq<WeeklyRound>, n: int): int
    decreases n
  {
    if n <= 0 then 0
    else PlayedTotal(rounds, n - 1) + (if WeekSubmitted(rounds, n) then FindWeek(rounds, n).value.totalScore else 0)
  }

  /** Number of nulls in a score array. */
  function NullCount(s: seq<Option<int>>): nat
  {
    if |s| == 0 then 0 else NullCount(s[..|s| - 1]) + (if s[|s| - 1].None? then 1 else 0)
  }

  /** The score array for weeks 1..n; slot i is about week i + 1. */
  function WeeklyScores(rounds: seq<WeeklyRound>, n: int): (s: seq<Option<int>>)
    ensures |s| == if n < 0 then 0 else n
    ensures forall i :: 0 <= i < |s| ==> s[i] == WeekEntry(rounds, i + 1)
    decreases n
  {
    if n <= 0 then [] else WeeklyScores(rounds, n - 1) + [WeekEntry(rounds, n)]
  }

  /** The nulls of the score array are exactly the missed weeks. */
  lemma {:induction false} WeeklyScoresNullCount(rounds: seq<WeeklyRound>, n: int)
    ensures NullCount(WeeklyScores(rounds, n)) == MissedWeeks(rounds, n)
    decreases n
  {
    if n > 0 {
      var prev := WeeklyScores(rounds, n - 1);
      var s := WeeklyScores(rounds, n);
      assert s == prev + [WeekEntry(rounds, n)];
      assert s[..|s| - 1] == prev;
      WeeklyScoresNullCount(rounds, n - 1);
    }
  }

  /** The season total is 63 per missed week plus the submitted totals. */
  lemma {:induction false} SeasonTotalSplit(rounds: seq<WeeklyRound>, n: int)
    ensures SeasonTotal(rounds, n) == MISSED_ROUND_PENALTY * MissedWeeks(rounds, n) + PlayedTotal(rounds, n)
    decreases n
  {
    if n > 0 {
      SeasonTotalSplit(rounds, n - 1);
    }
  }

  /** Every week is either missed or played. */
  lemma {:induction false} MissedPlusPlayed(rounds: seq<WeeklyRound>, n: int)
    requires 0 <= n
    ensures MissedWeeks(rounds, n) + PlayedWeeks(rounds, n) == n
  {
    if n > 0 {
      MissedPlusPlayed(rounds, n - 1);
    }
  }

  /** `calculateSeasonTotal`. */
  method CalculateSeasonTotal(rounds: seq<WeeklyRound>, totalWeeks: int) returns (total: int)
    ensures total == SeasonTotal(rounds, totalWeeks)
    ensures total == MISSED_ROUND_PENALTY * MissedWeeks(rounds, totalWeeks) + PlayedTotal(rounds, totalWeeks)
  {
    total := 0;
    var week := 1;
    while week <= totalWeeks
      invariant 1 <= week <= if totalWeeks < 1 then 1 else totalWeeks + 1
      invariant total == SeasonTotal(rounds, week - 1)
    {
      var round := FindWeek(rounds, week);
      if round.None? || !round.value.submitted {
        total := total + MISSED_ROUND_PENALTY;
      } else {
        total := total + round.value.totalScore;
      }
      week := week + 1;
    }
    SeasonTotalSplit(rounds, totalWeeks);
  }

  /** `countMissedWeeks`. */
  method CountMissedWeeks(rounds: seq<WeeklyRound>, totalWeeks: int) returns (missed: int)
    ensures missed == MissedWeeks(rounds, totalWeeks)
    ensures 0 <= missed <= if totalWeeks < 0 then 0 else totalWeeks
  {
    missed := 0;
    var week := 1;
    while week <= totalWeeks
      invariant 1 <= week <= if totalWeeks < 1 then 1 else totalWeeks + 1
      invariant missed == MissedWeeks(rounds, week - 1)
    {
      var round := FindWeek(rounds, week);
      if round.None? || !round.value.submitted {
        missed := missed + 1;
      }
      week := week + 1;
    }
  }

  /**
   * `isPlayerDisqualified`: more than three of the six weeks missed, that is,
   * fewer than three weeks played.
   */
  function IsPlayerDisqualified(rounds: seq<WeeklyRound>): (dq: bool)
    ensures dq <==> PlayedWeeks(rounds, TOTAL_WEEKS) < 3
  {
    MissedPlusPlayed(rounds, TOTAL_WEEKS);
    MissedWeeks(rounds, TOTAL_WEEKS) > DISQUALIFICATION_MISSED_WEEKS
  }

  /** `getWeeklyScoresArray`. */
  method GetWeeklyScoresArray(rounds: seq<WeeklyRound>) returns (scores: seq<Option<int>>)
    ensures |scores| == TOTAL_WEEKS
    ensures forall i :: 0 <= i < |scores| ==>
      scores[i] == if WeekSubmitted(rounds, i + 1) then Some(FindWeek(rounds, i + 1).value.totalScore) else None
    ensures NullCount(scores) == MissedWeeks(rounds, TOTAL_WEEKS)
    ensures scores == WeeklyScores(rounds, TOTAL_WEEKS)
  {
    scores := [];
    var week := 1;
    while week <= TOTAL_WEEKS
      invariant 1 <= week <= TOTAL_WEEKS + 1
      invariant |scores| == week - 1
      invariant forall i :: 0 <= i < |scores| ==> scores[i] == WeekEntry(rounds, i + 1)
    {
      var round := FindWeek(rounds, week);
      var entry := if round.Some? && round.value.submitted then Some(round.value.totalScore) else None;
      assert entry == WeekEntry(rounds, week);
      scores := scores + [entry];
      week := week + 1;
    }
    assert scores == WeeklyScores(rounds, TOTAL_WEEKS);
    WeeklyScoresNullCount(rounds, TOTAL_WEEKS);
  }

  /** A player with no rounds: 63 per week, every week missed, disqualified. */
  lemma {:induction false} NoRoundsSeason(n: int)
    requires 0 <= n
    ensures SeasonTotal([], n) == MISSED_ROUND_PENALTY * n
    ensures MissedWeeks([], n) == n
  {
    if n > 0 {
      NoRoundsSeason(n - 1);
    }
  }

  lemma NoRoundsDisqualified()
    ensures SeasonTotal([], TOTAL_WEEKS) == 378
    ensures MissedWeeks([], TOTAL_WEEKS) == TOTAL_WEEKS
    ensures IsPlayerDisqualified([])
  {
    NoRoundsSeason(TOTAL_WEEKS);
  }

  /** Submitting every week leaves nothing missed and no disqualification. */
  lemma {:induction false} AllPlayedNoneMissed(rounds: seq<WeeklyRound>, n: int)
    requires forall w :: 1 <= w <= n ==> WeekSubmitted(rounds, w)
    ensures MissedWeeks(rounds, n) == 0
    ensures SeasonTotal(rounds, n) == PlayedTotal(rounds, n)
    decreases n
  {
    if n > 0 {
      AllPlayedNoneMissed(rounds, n - 1);
    }
  }

  /** Exactly three missed weeks is not a disqualification; four is. */
  lemma DisqualificationBoundary(rounds: seq<WeeklyRound>)
    ensures MissedWeeks(rounds, TOTAL_WEEKS) == 3 ==> !IsPlayerDisqualified(rounds)
    ensures MissedWeeks(rounds, TOTAL_WEEKS) == 4 ==> IsPlayerDisqualified(rounds)
  {
  }

  /** Each week appears in at most one round. */
  predicate UniqueWeeks(rounds: seq<WeeklyRound>)
  {
    forall i, j :: 0 <= i < j < |rounds| ==> rounds[i].week != rounds[j].week
  }

  /** With unique weeks the lookup does not depend on the order of the rounds. */
  lemma FindWeekReordered(a: seq<WeeklyRound>, b: seq<WeeklyRound>, week: int)
    requires UniqueWeeks(a) && multiset(a) == multiset(b)
    ensures FindWeek(a, week) == FindWeek(b, week)
  {
    var fb := FindWeek(b, week);
    if fb.Some? {
      assert fb.value in multiset(a);
      var fa := FindWeek(a, week);
      var k :| 0 <= k < |a| && a[k] == fb.value;
      var ka :| 0 <= ka < |a| && a[ka] == fa.value;
      assert k == ka;
    } else {
      forall i | 0 <= i < |a| ensures a[i].week != week {
        assert a[i] in multiset(b);
      }
    }
  }

  /** Season results are invariant under reordering of a player's rounds. */
  lemma {:induction false} SeasonReordered(a: seq<WeeklyRound>, b: seq<WeeklyRound>, n: int)
    requires UniqueWeeks(a) && multiset(a) == multiset(b)
    ensures SeasonTotal(a, n) == SeasonTotal(b, n)
    ensures MissedWeeks(a, n) == MissedWeeks(b, n)
    decreases n
  {
    if n > 0 {
      SeasonReordered(a, b, n - 1);
      FindWeekReordered(a, b, n);
    }
  }

  /** The score array is invariant under the same reorderings. */
  lemma WeeklyScoresReordered(a: seq<WeeklyRound>, b: seq<WeeklyRound>, n: int)
    requires UniqueWeeks(a) && multiset(a) == multiset(b)
    ensures WeeklyScores(a, n) == WeeklyScores(b, n)
  {
    var sa, sb := WeeklyScores(a, n), WeeklyScores(b, n);
    forall i | 0 <= i < |sa| ensures sa[i] == sb[i] {
      FindWeekReordered(a, b, i + 1);
    }
  }

  /** Two rounds for one week: their order decides what counts. */
  lemma DuplicateWeekOrderMatters(played: WeeklyRound, pending: WeeklyRound)
    requires played.week == 1 && pending.week == 1
    requires played.submitted && played.totalScore == 40 && !pending.submitted
    ensures SeasonTotal([played, pending], 1) == 40
    ensures SeasonTotal([pending, played], 1) == 63
  {
    assert FindWeek([played, pending], 1) == Some(played);
    assert FindWeek([pending, played], 1) == Some(pending);
  }
}
