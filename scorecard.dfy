// The nine-hole scorecard as the two score forms handle it: a map from hole
// number to strokes, loaded from a round's `holeScores` with `forEach`
// (CommissionerDashboard.tsx) and turned back into nine `HoleScore` records
// with `Array.from({ length: 9 }, ...)` (ScoreEntry.tsx, CommissionerDashboard.tsx).
module Scorecard {
  import opened Types
  import Scoring

  const HOLES_PER_ROUND: int := 9
  const MAX_STROKES_PER_HOLE: int := 20
  const HOLE_NUMBERS: set<int> := {1, 2, 3, 4, 5, 6, 7, 8, 9}

  /** `m[hole] || 0`: a hole the map does not hold reads as 0. */
  function StrokesOrZero(m: map<int, int>, hole: int): int
  {
    if hole in m then m[hole] else 0
  }

  /** The keys of a score form: exactly the holes 1..9. */
  predicate HasNineHoles(m: map<int, int>)
  {
    m.Keys == HOLE_NUMBERS
  }

  /** The score form's initial state: every hole at 0. */
  function ZeroScores(): (m: map<int, int>)
    ensures HasNineHoles(m)
    ensures forall h :: h in m ==> m[h] == 0
  {
    map h | h in HOLE_NUMBERS :: 0
  }

  /** The nine records sent to the store: hole i + 1 carries `m[i + 1] || 0`. */
  function NineHoles(m: map<int, int>): (holes: seq<HoleScore>)
    ensures |holes| == HOLES_PER_ROUND
    ensures forall i :: 0 <= i < |holes| ==> holes[i].holeNumber == i + 1
    ensures forall i :: 0 <= i < |holes| ==> holes[i].strokes == StrokesOrZero(m, i + 1)
  {
    seq(HOLES_PER_ROUND, i requires 0 <= i < HOLES_PER_ROUND => HoleScore(i + 1, StrokesOrZero(m, i + 1)))
  }

  /** A well-formed card: nine holes numbered 1..9 in order. */
  predicate Numbered(holes: seq<HoleScore>)
  {
    |holes| == HOLES_PER_ROUND && forall i :: 0 <= i < |holes| ==> holes[i].holeNumber == i + 1
  }

  /** `holes.forEach((h) => { m[h.holeNumber] = h.strokes })` from `{}`: a later hole overwrites. */
  function HoleMap(holes: seq<HoleScore>): (m: map<int, int>)
    ensures m.Keys == set i | 0 <= i < |holes| :: holes[i].holeNumber
  {
    if |holes| == 0 then map[]
    else
      var last := holes[|holes| - 1];
      var m := HoleMap(holes[..|holes| - 1])[last.holeNumber := last.strokes];
      assert (set i | 0 <= i < |holes| :: holes[i].holeNumber)
          == (set i | 0 <= i < |holes| - 1 :: holes[i].holeNumber) + {last.holeNumber};
      m
  }

  /** With distinct hole numbers every hole's strokes are found under its number. */
  lemma {:induction false} HoleMapDistinct(holes: seq<HoleScore>, k: nat)
    requires forall i, j :: 0 <= i < j < |holes| ==> holes[i].holeNumber != holes[j].holeNumber
    requires k < |holes|
    ensures holes[k].holeNumber in HoleMap(holes)
    ensures HoleMap(holes)[holes[k].holeNumber] == holes[k].strokes
  {
    if k < |holes| - 1 {
      HoleMapDistinct(holes[..|holes| - 1], k);
    }
  }

  /** Loading a well-formed card into the edit map and saving it unchanged sends the same card. */
  lemma LoadThenSave(holes: seq<HoleScore>)
    requires Numbered(holes)
    ensures NineHoles(HoleMap(holes)) == holes
  {
    var back := NineHoles(HoleMap(holes));
    forall k | 0 <= k < |holes| ensures back[k] == holes[k] {
      HoleMapDistinct(holes, k);
    }
  }

  /** Sum of `m[h] || 0` over the holes 1..n. */
  function HoleSum(m: map<int, int>, n: int): int
    decreases n
  {
    if n <= 0 then 0 else HoleSum(m, n - 1) + StrokesOrZero(m, n)
  }

  /**
   * `Object.values(m).reduce((sum, s) => sum + s, 0)` for a form whose keys
   * are the holes 1..9 (integer keys are visited in ascending order).
   */
  function DisplayedTotal(m: map<int, int>): int
    requires HasNineHoles(m)
  {
    HoleSum(m, HOLES_PER_ROUND)
  }

  lemma {:induction false} HoleSumIsRoundTotal(m: map<int, int>, n: nat)
    requires n <= HOLES_PER_ROUND
    ensures HoleSum(m, n) == Scoring.RoundTotal(NineHoles(m)[..n])
  {
    if n > 0 {
      HoleSumIsRoundTotal(m, n - 1);
      assert NineHoles(m)[..n][..n - 1] == NineHoles(m)[..n - 1];
    }
  }

  /** The total the form displays is the total of the card it submits. */
  lemma DisplayedTotalIsRoundTotal(m: map<int, int>)
    requires HasNineHoles(m)
    ensures DisplayedTotal(m) == Scoring.RoundTotal(NineHoles(m))
  {
    HoleSumIsRoundTotal(m, HOLES_PER_ROUND);
    assert NineHoles(m)[..HOLES_PER_ROUND] == NineHoles(m);
  }
}
