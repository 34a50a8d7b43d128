// The score-entry form of src/components/ScoreEntry.tsx: a nine-hole scorecard
// the player fills in, a confirmation step, and the submission to the store.
module ScoreEntry {
  import opened Types
  import opened Strings
  import opened Scorecard
  import Scoring
  import opened LeagueStore

  /** `value === '' ? 0 : parseInt(value)`, with `None` standing for NaN. */
  function ParseStrokes(value: string): Option<int>
  {
    if value == "" then Some(0) else ParseInt(value)
  }

  /** `numValue >= 0 && numValue <= 20`; NaN fails both comparisons. */
  predicate InStrokeRange(v: Option<int>)
  {
    v.Some? && 0 <= v.value <= MAX_STROKES_PER_HOLE
  }

  /** The scorecard after `handleScoreChange(hole, value)`. */
  function ScoreChanged(scores: map<int, int>, hole: int, value: string): (r: map<int, int>)
    ensures forall h :: h != hole ==> (h in r <==> h in scores)
    ensures forall h :: h != hole && h in r ==> r[h] == scores[h]
    ensures hole in r ==> 0 <= r[hole] <= MAX_STROKES_PER_HOLE || (hole in scores && r[hole] == scores[hole])
    ensures hole in scores ==> hole in r
    ensures value == "" ==> r == scores[hole := 0]
  {
    var v := ParseStrokes(value);
    if InStrokeRange(v) then scores[hole := v.value] else scores
  }

  /** Typing the decimal digits of `n` stores `n` exactly when it lies in [0, 20]. */
  lemma ScoreChangeByNumber(scores: map<int, int>, hole: int, n: int)
    ensures ScoreChanged(scores, hole, IntToString(n))
         == if 0 <= n <= MAX_STROKES_PER_HOLE then scores[hole := n] else scores
  {
    ParseIntRoundTrip(n);
  }

  /** A form state: holes 1..9, each within [0, 20]. */
  predicate FormValid(scores: map<int, int>)
  {
    HasNineHoles(scores) && forall h :: h in scores ==> 0 <= scores[h] <= MAX_STROKES_PER_HOLE
  }

  /** Starting from all zeros, every change keeps every hole within [0, 20]. */
  lemma ScoreChangeKeepsForm(scores: map<int, int>, hole: int, value: string)
    requires FormValid(scores) && hole in HOLE_NUMBERS
    ensures FormValid(ScoreChanged(scores, hole, value))
  {
    var r := ScoreChanged(scores, hole, value);
    assert r.Keys == scores.Keys;
  }

  /** `Object.values(scores).every((score) => score > 0)` */
  predicate AllHolesFilled(scores: map<int, int>)
  {
    forall h :: h in scores ==> scores[h] > 0
  }

  /** The fresh form is not filled, so it cannot be submitted. */
  lemma FreshFormNotFilled()
    ensures FormValid(ZeroScores()) && !AllHolesFilled(ZeroScores())
  {
    assert 1 in ZeroScores();
  }

  /** A filled, valid form submits nine holes with 1..20 strokes each, 9..180 in all. */
  lemma FilledCardBounds(scores: map<int, int>)
    requires FormValid(scores) && AllHolesFilled(scores)
    ensures forall i :: 0 <= i < HOLES_PER_ROUND ==> 1 <= NineHoles(scores)[i].strokes <= MAX_STROKES_PER_HOLE
    ensures 9 <= Scoring.RoundTotal(NineHoles(scores)) <= 180
  {
    var holes := NineHoles(scores);
    forall i | 0 <= i < HOLES_PER_ROUND ensures 1 <= holes[i].strokes <= MAX_STROKES_PER_HOLE {
      assert i + 1 in HOLE_NUMBERS;
    }
    Scoring.RoundTotalBounds(holes, 1, MAX_STROKES_PER_HOLE);
  }

  /** The arguments `handleConfirmSubmit` passes to `submitRound`. */
  datatype SubmitCall = SubmitCall(playerId: string, week: int, holes: seq<HoleScore>, photoUrl: Option<string>)

  /** What a confirmed submission sends: nothing without a user; nine numbered holes; `''` as undefined. */
  function Submission(user: Option<AuthUser>, week: int, scores: map<int, int>, photoUrl: string): (r: Option<SubmitCall>)
    ensures r.None? <==> user.None?
    ensures r.Some? ==> r.value.playerId == user.value.id && r.value.week == week
    ensures r.Some? ==> Numbered(r.value.holes)
    ensures r.Some? ==> forall i :: 0 <= i < |r.value.holes| ==> r.value.holes[i].strokes == StrokesOrZero(scores, i + 1)
    ensures r.Some? ==> (r.value.photoUrl.None? <==> photoUrl == "")
    ensures r.Some? && photoUrl != "" ==> r.value.photoUrl == Some(photoUrl)
  {
    if user.None? then None
    else Some(SubmitCall(user.value.id, week, NineHoles(scores), if photoUrl == "" then None else Some(photoUrl)))
  }

  /** The submitted card, loaded back into an edit map, gives back the form's scores. */
  lemma SubmissionReloads(scores: map<int, int>)
    requires HasNineHoles(scores)
    ensures HoleMap(NineHoles(scores)) == scores
  {
    var holes := NineHoles(scores);
    var m := HoleMap(holes);
    forall h | h in scores ensures h in m && m[h] == scores[h] {
      assert h in HOLE_NUMBERS;
      HoleMapDistinct(holes, h - 1);
    }
    forall h | h in m ensures h in scores {
      var i :| 0 <= i < |holes| && holes[i].holeNumber == h;
    }
  }

  /** What the component renders: a warning, the submitted total, or the form. */
  datatype EntryView = DeclareFirst | AlreadySubmitted(total: int) | Form

  function View(rounds: seq<WeeklyRound>, user: Option<AuthUser>, week: int): (v: EntryView)
    ensures v.Form? <==> user.Some? && FindRound(rounds, user.value.id, week).Some?
                         && FindRound(rounds, user.value.id, week).value.declared
                         && !FindRound(rounds, user.value.id, week).value.submitted
    ensures v.DeclareFirst? <==> user.None? || FindRound(rounds, user.value.id, week).None?
                                 || !FindRound(rounds, user.value.id, week).value.declared
  {
    var weekRound := FindUserRound(rounds, user, week);
    if weekRound.None? || !weekRound.value.declared then DeclareFirst
    else if weekRound.value.submitted then AlreadySubmitted(weekRound.value.totalScore)
    else Form
  }

  /** After a submission through the form, the form is no longer offered for that week. */
  lemma SubmittedFormClosed(rounds: seq<WeeklyRound>, user: AuthUser, week: int, scores: map<int, int>,
                            photoUrl: Option<string>, now: string)
    requires AllDeclared(rounds)
    requires View(rounds, Some(user), week).Form?
    ensures View(SubmittedRounds(rounds, user.id, week, NineHoles(scores), photoUrl, now), Some(user), week).AlreadySubmitted?
  {
    var r := FindRound(rounds, user.id, week).value;
    var k :| 0 <= k < |rounds| && rounds[k] == r;
    var after := SubmittedRounds(rounds, user.id, week, NineHoles(scores), photoUrl, now);
    assert Matches(after[k], user.id, week);
    var found := FindRound(after, user.id, week).value;
    var j :| 0 <= j < |after| && after[j] == found;
    assert rounds[j].declared;
  }

  // ---------------------------------------------------------------------------
  // Week selection. The component mounts with week 1, and its week buttons are
  // rendered only below the early returns, with the form.

  /** The week shown after a sequence of week-button clicks: a click lands only in the Form view. */
  function WeekAfterClicks(rounds: seq<WeeklyRound>, user: Option<AuthUser>, week: int, clicks: seq<int>): (w: int)
    ensures w == week || w in clicks
    decreases |clicks|
  {
    if |clicks| == 0 then week
    else WeekAfterClicks(rounds, user, if View(rounds, user, week).Form? then clicks[0] else week, clicks[1..])
  }

  /** Once the week shown is not the form, no click changes it. */
  lemma {:induction false} ClosedViewKeepsWeek(rounds: seq<WeeklyRound>, user: Option<AuthUser>, week: int, clicks: seq<int>)
    requires !View(rounds, user, week).Form?
    ensures WeekAfterClicks(rounds, user, week, clicks) == week
    decreases |clicks|
  {
    if |clicks| > 0 {
      ClosedViewKeepsWeek(rounds, user, week, clicks[1..]);
    }
  }

  /**
   * A player whose week 1 is undeclared or already submitted never sees the
   * form for any week: the freshly mounted component stays on week 1.
   */
  lemma FreshFormStuckOnWeekOne(rounds: seq<WeeklyRound>, user: Option<AuthUser>, clicks: seq<int>)
    requires !View(rounds, user, 1).Form?
    ensures WeekAfterClicks(rounds, user, 1, clicks) == 1
    ensures !View(rounds, user, WeekAfterClicks(rounds, user, 1, clicks)).Form?
  {
    ClosedViewKeepsWeek(rounds, user, 1, clicks);
  }

  /**
   * Alex submitted week 1 and declared week 2. Week 2 would show the form, but
   * whatever the clicks, the score tab shows week 1's "already submitted".
   */
  lemma SecondWeekUnreachableExample(clicks: seq<int>)
    ensures var alex := AuthUser("user-alex", "alex", "alex@example.com", true);
      var week1 := WeeklyRound("r1", "user-alex", 1, true, None, [], 40, true, None, None, false);
      var week2 := WeeklyRound("r2", "user-alex", 2, true, None, [], 0, false, None, None, false);
      && View([week1, week2], Some(alex), 2).Form?
      && View([week1, week2], Some(alex), 1) == AlreadySubmitted(40)
      && WeekAfterClicks([week1, week2], Some(alex), 1, clicks) == 1
  {
    var alex := AuthUser("user-alex", "alex", "alex@example.com", true);
    var week1 := WeeklyRound("r1", "user-alex", 1, true, None, [], 40, true, None, None, false);
    var week2 := WeeklyRound("r2", "user-alex", 2, true, None, [], 0, false, None, None, false);
    var rounds := [week1, week2];
    assert FindRound(rounds, "user-alex", 1) == Some(week1);
    assert FindRound(rounds, "user-alex", 2) == Some(week2) by {
      assert !Matches(week1, "user-alex", 2);
      assert rounds[1..] == [week2];
    }
    FreshFormStuckOnWeekOne(rounds, Some(alex), clicks);
  }

  /** The week shown when the selector is rendered above every view: each click lands. */
  function WeekAfterClicksCorrected(week: int, clicks: seq<int>): (w: int)
    ensures |clicks| == 0 ==> w == week
    ensures |clicks| > 0 ==> w == clicks[|clicks| - 1]
    decreases |clicks|
  {
    if |clicks| == 0 then week else WeekAfterClicksCorrected(clicks[0], clicks[1..])
  }

  /**
   * With the corrected selector, from any start week and after any earlier
   * clicks, one click on a declared, unsubmitted week brings up its form.
   */
  lemma CorrectedSelectorReachesEveryWeek(rounds: seq<WeeklyRound>, user: Option<AuthUser>,
                                          start: int, clicks: seq<int>, week: int)
    requires View(rounds, user, week).Form?
    ensures WeekAfterClicksCorrected(start, clicks + [week]) == week
    ensures View(rounds, user, WeekAfterClicksCorrected(start, clicks + [week])).Form?
  {
  }

  class ScoreEntryForm {
    var selectedWeek: int
    var scores: map<int, int>
    var photoUrl: string
    var submitted: bool
    var showConfirmation: bool

    ghost predicate Valid()
      reads this
    {
      FormValid(scores)
    }

    constructor ()
      ensures Valid()
      ensures selectedWeek == 1 && scores == ZeroScores() && photoUrl == ""
      ensures !submitted && !showConfirmation
    {
      selectedWeek := 1;
      scores := ZeroScores();
      photoUrl := "";
      submitted := false;
      showConfirmation := false;
    }

    /**
     * A week button. The buttons are rendered only with the form itself, so a
     * click needs the Form view of the week shown now.
     */
    method SelectWeek(rounds: seq<WeeklyRound>, user: Option<AuthUser>, week: int)
      requires Valid() && View(rounds, user, selectedWeek).Form?
      modifies this`selectedWeek
      ensures Valid() && selectedWeek == week
    {
      selectedWeek := week;
    }

    /** A hole input; like the week buttons it exists only in the Form view. */
    method HandleScoreChange(rounds: seq<WeeklyRound>, user: Option<AuthUser>, hole: int, value: string)
      requires Valid() && View(rounds, user, selectedWeek).Form? && hole in HOLE_NUMBERS
      modifies this`scores
      ensures Valid()
      ensures scores == ScoreChanged(old(scores), hole, value)
    {
      ScoreChangeKeepsForm(scores, hole, value);
      var numValue := ParseStrokes(value);
      if InStrokeRange(numValue) {
        scores := scores[hole := numValue.value];
      }
    }

    /** `handleSubmitClick`: an unfilled card raises the alert and leaves the confirmation closed. */
    method HandleSubmitClick(rounds: seq<WeeklyRound>, user: Option<AuthUser>) returns (alerted: bool)
      requires Valid() && View(rounds, user, selectedWeek).Form?
      modifies this`showConfirmation
      ensures Valid()
      ensures alerted <==> !AllHolesFilled(scores)
      ensures alerted ==> showConfirmation == old(showConfirmation)
      ensures !alerted ==> showConfirmation
    {
      if !AllHolesFilled(scores) {
        return true;
      }
      showConfirmation := true;
      alerted := false;
    }

    /** `handleConfirmSubmit`: sends the card when someone is signed in; reports the week. */
    method HandleConfirmSubmit(store: League, now: string) returns (reported: Option<int>)
      requires Valid() && store.Valid()
      modifies this`submitted, this`showConfirmation, store`rounds, store`cloudWrites
      ensures Valid() && store.Valid()
      ensures store.currentUser.None? ==> reported.None? && unchanged(this) && unchanged(store)
      ensures store.currentUser.Some? ==>
        && reported == Some(selectedWeek)
        && submitted && !showConfirmation
        && store.rounds == SubmittedRounds(old(store.rounds), store.currentUser.value.id, selectedWeek,
                                           NineHoles(scores), if photoUrl == "" then None else Some(photoUrl), now)
        && store.cloudWrites == old(store.cloudWrites) +
             match FindRound(store.rounds, store.currentUser.value.id, selectedWeek)
             case None => []
             case Some(r) => [RoundWrite(r)]
    {
      var call := Submission(store.currentUser, selectedWeek, scores, photoUrl);
      if call.None? {
        return None;
      }
      store.SubmitRound(call.value.playerId, call.value.week, call.value.holes, call.value.photoUrl, now);
      submitted := true;
      showConfirmation := false;
      reported := Some(selectedWeek);
    }

    /** The "9-Hole Total" shown under the form. */
    function Total(): (t: int)
      reads this
      requires Valid()
      ensures t == Scoring.RoundTotal(NineHoles(scores))
      ensures 0 <= t <= HOLES_PER_ROUND * MAX_STROKES_PER_HOLE
    {
      DisplayedTotalIsRoundTotal(scores);
      FormTotalBounds(scores);
      DisplayedTotal(scores)
    }
  }

  lemma FormTotalBounds(scores: map<int, int>)
    requires FormValid(scores)
    ensures 0 <= Scoring.RoundTotal(NineHoles(scores)) <= HOLES_PER_ROUND * MAX_STROKES_PER_HOLE
  {
    var holes := NineHoles(scores);
    forall i | 0 <= i < |holes| ensures 0 <= holes[i].strokes <= MAX_STROKES_PER_HOLE {
      assert i + 1 in HOLE_NUMBERS;
    }
    Scoring.RoundTotalBounds(holes, 0, MAX_STROKES_PER_HOLE);
  }
}
