// The commissioner dashboard of src/components/CommissionerDashboard.tsx:
// week management, the buy-in table, and the score table with its edit and
// lock actions. The edit modal remembers which round it edits through the key
// `${playerId}-${week}` and reads it back with `split('-')`.
module Commissioner {
  import opened Types
  import opened Strings
  import opened Scorecard
  import opened LeagueStore

  const WEEKS_SHOWN: int := 6

  // ---------------------------------------------------------------------------
  // The edit key

  /** `${playerId}-${week}` */
  function EncodeEditKey(playerId: string, week: int): (k: string)
    ensures |k| > |playerId| && k[..|playerId|] == playerId && k[|playerId|] == '-'
    ensures ParseInt(k[|playerId| + 1..]) == Some(week)
  {
    var k := playerId + "-" + IntToString(week);
    assert k[..|playerId|] == playerId;
    assert k[|playerId| + 1..] == IntToString(week);
    ParseIntRoundTrip(week);
    k
  }

  /** The (player, week) a Save click edits; `week == None` stands for NaN, which matches no round. */
  datatype EditTarget = EditTarget(playerId: string, week: Option<int>)

  /** `const [playerId, week] = key.split('-')` then `parseInt(week)`, as written. */
  function ParseEditKeyAsWritten(key: string): (t: EditTarget)
    ensures '-' !in t.playerId
    ensures t.playerId <= key
  {
    var parts := Split(key, '-');
    JoinSplit(key, '-');
    assert Split(key, '-') == [parts[0]] + parts[1..];
    EditTarget(parts[0], if |parts| >= 2 then ParseInt(parts[1]) else None)
  }

  /** As written, a key whose player id holds no '-' round-trips, for every non-negative week. */
  lemma EditKeyAsWrittenPlainId(playerId: string, week: int)
    requires '-' !in playerId && week >= 0
    ensures ParseEditKeyAsWritten(EncodeEditKey(playerId, week)) == EditTarget(playerId, Some(week))
  {
    var digits := IntToString(week);
    assert EncodeEditKey(playerId, week) == playerId + ['-'] + digits;
    SplitAtFirstSeparator(playerId, digits, '-');
    SplitWithoutSeparator(digits, '-');
    ParseIntRoundTrip(week);
  }

  /**
   * As written, the store's ids `user-<name>` lose everything after the first '-':
   * the player id read back is "user" and the week is the username parsed as a number.
   */
  lemma EditKeyAsWrittenLosesStoreId(username: string, week: int)
    requires '-' !in username
    ensures ParseEditKeyAsWritten(EncodeEditKey(PlayerId(username), week)) == EditTarget("user", ParseInt(username))
  {
    var digits := IntToString(week);
    var rest := username + ['-'] + digits;
    var key := EncodeEditKey(PlayerId(username), week);
    assert key == "user" + ['-'] + rest;
    SplitAtFirstSeparator("user", rest, '-');
    SplitAtFirstSeparator(username, digits, '-');
    var parts := Split(key, '-');
    assert parts == ["user"] + ([username] + Split(digits, '-'));
    assert parts[0] == "user" && parts[1] == username;
  }

  /** For the seeded commissioner "alex" the week read back is NaN. */
  lemma EditKeyAsWrittenExample()
    ensures ParseEditKeyAsWritten(EncodeEditKey("user-alex", 1)) == EditTarget("user", None)
  {
    assert PlayerId("alex") == "user-alex";
    EditKeyAsWrittenLosesStoreId("alex", 1);
    assert !IsDigit("alex"[0]) && "alex"[0] !in "+-";
  }

  /** Round ids as the store makes them: every player id starts with "user-". */
  predicate StoreIds(rounds: seq<WeeklyRound>)
  {
    forall i :: 0 <= i < |rounds| ==> "user-" <= rounds[i].playerId
  }

  /** Hence, as written, saving an edit of any store round edits nothing. */
  lemma SaveAsWrittenEditsNothing(rounds: seq<WeeklyRound>, username: string, week: int, holes: seq<HoleScore>)
    requires StoreIds(rounds) && '-' !in username
    ensures var t := ParseEditKeyAsWritten(EncodeEditKey(PlayerId(username), week));
      t.week.Some? ==> EditedRounds(rounds, t.playerId, t.week.value, holes) == rounds
  {
    EditKeyAsWrittenLosesStoreId(username, week);
    var t := ParseEditKeyAsWritten(EncodeEditKey(PlayerId(username), week));
    if t.week.Some? {
      forall i | 0 <= i < |rounds| ensures !Matches(rounds[i], "user", t.week.value) {
        assert |rounds[i].playerId| >= 5;
      }
      NoMatchNoChange(rounds, "user", t.week.value, holes, None, "");
    }
  }

  /** The evidently intended parse: the week follows the last '-'. */
  function ParseEditKey(key: string): (t: EditTarget)
    ensures t.playerId <= key
  {
    var k := LastIndex(key, '-');
    if k < 0 then EditTarget(key, None) else EditTarget(key[..k], ParseInt(key[k + 1..]))
  }

  /** Every edit key of a non-negative week reads back as the round it was made from. */
  lemma EditKeyRoundTrip(playerId: string, week: int)
    requires week >= 0
    ensures ParseEditKey(EncodeEditKey(playerId, week)) == EditTarget(playerId, Some(week))
  {
    var digits := IntToString(week);
    var key := EncodeEditKey(playerId, week);
    assert key == playerId + ['-'] + digits;
    LastIndexAfter(playerId, digits, '-');
    assert key[..|playerId|] == playerId;
    assert key[|playerId| + 1..] == digits;
    ParseIntRoundTrip(week);
  }

  // ---------------------------------------------------------------------------
  // The edit inputs

  /** `parseInt(value) || 0`: NaN and 0 read as 0; nothing is clamped to [0, 20]. */
  function EditInput(value: string): (n: int)
    ensures ParseInt(value).None? ==> n == 0
  {
    match ParseInt(value)
    case None => 0
    case Some(v) => v
  }

  /** Whatever number is typed is stored, out of [0, 20] included. */
  lemma EditInputNoClamp(n: int)
    ensures EditInput(IntToString(n)) == n
  {
    ParseIntRoundTrip(n);
  }

  // ---------------------------------------------------------------------------
  // Gating

  /** The weeks 1..6 that still show a "Start Week" button. */
  function StartWeekButtons(activeWeeks: seq<int>): (ws: seq<int>)
    ensures forall w :: w in ws <==> 1 <= w <= WEEKS_SHOWN && w !in activeWeeks
  {
    StartButtonsFrom(activeWeeks, 1)
  }

  function StartButtonsFrom(activeWeeks: seq<int>, first: int): (ws: seq<int>)
    requires 1 <= first
    ensures forall w :: w in ws <==> first <= w <= WEEKS_SHOWN && w !in activeWeeks
    decreases WEEKS_SHOWN - first
  {
    if first > WEEKS_SHOWN then []
    else (if first in activeWeeks then [] else [first]) + StartButtonsFrom(activeWeeks, first + 1)
  }

  /** Starting a week removes its button and no other. */
  lemma StartWeekRemovesButton(activeWeeks: seq<int>, week: int)
    ensures week !in StartWeekButtons(StartedWeeks(activeWeeks, week))
    ensures forall w :: w != week ==>
      (w in StartWeekButtons(StartedWeeks(activeWeeks, week)) <==> w in StartWeekButtons(activeWeeks))
  {
  }

  /** `players.filter((p) => !p.isCommissioner)`: the rows of the buy-in and score tables. */
  function ManagedPlayers(players: seq<Player>): (ps: seq<Player>)
    ensures forall p :: p in ps <==> p in players && !p.isCommissioner
    ensures |ps| <= |players|
  {
    if |players| == 0 then []
    else (if players[0].isCommissioner then [] else [players[0]]) + ManagedPlayers(players[1..])
  }

  /** The seeded league has only commissioners, so both tables start empty. */
  lemma InitialTablesEmpty()
    ensures ManagedPlayers(InitialPlayers()) == []
  {
    var ps := InitialPlayers();
    assert ps == [ps[0], ps[1]];
    assert ps[1..] == [ps[1]];
  }

  /** `rounds.filter((r) => r.week === selectedWeek)` */
  function WeekRounds(rounds: seq<WeeklyRound>, week: int): (r: seq<WeeklyRound>)
    ensures |r| <= |rounds|
    ensures forall i :: 0 <= i < |r| ==> r[i].week == week
  {
    if |rounds| == 0 then []
    else (if rounds[0].week == week then [rounds[0]] else []) + WeekRounds(rounds[1..], week)
  }

  /** The filter keeps exactly the rounds with that week: none lost, none added. */
  lemma {:induction false} WeekRoundsMembers(rounds: seq<WeeklyRound>, week: int)
    ensures forall x :: x in WeekRounds(rounds, week) <==> x in rounds && x.week == week
  {
    if |rounds| > 0 {
      WeekRoundsMembers(rounds[1..], week);
      assert rounds == [rounds[0]] + rounds[1..];
    }
  }

  /** `weekRounds.find((r) => r.playerId === player.id)` */
  function FindByPlayer(rounds: seq<WeeklyRound>, playerId: string): (r: Option<WeeklyRound>)
    ensures r.Some? ==> r.value in rounds && r.value.playerId == playerId
    ensures r.None? <==> forall i :: 0 <= i < |rounds| ==> rounds[i].playerId != playerId
  {
    if |rounds| == 0 then None
    else if rounds[0].playerId == playerId then Some(rounds[0])
    else FindByPlayer(rounds[1..], playerId)
  }

  /** The row's round is the store's round for (player, selected week). */
  lemma {:induction false} RowRoundIsFindRound(rounds: seq<WeeklyRound>, playerId: string, week: int)
    ensures FindByPlayer(WeekRounds(rounds, week), playerId) == FindRound(rounds, playerId, week)
  {
    if |rounds| > 0 {
      RowRoundIsFindRound(rounds[1..], playerId, week);
      var tail := WeekRounds(rounds[1..], week);
      if rounds[0].week == week {
        assert WeekRounds(rounds, week) == [rounds[0]] + tail;
        assert ([rounds[0]] + tail)[1..] == tail;
      } else {
        assert WeekRounds(rounds, week) == tail;
      }
    }
  }

  datatype RowStatus = NotDeclared | Submitted | Pending

  /** One row of the score table: status, score, lock icon, and which actions it offers. */
  datatype ScoreRow = ScoreRow(status: RowStatus, score: Option<int>, locked: bool, canEdit: bool, canLock: bool)

  function Row(rounds: seq<WeeklyRound>, week: int, editingRound: Option<string>, player: Player): (row: ScoreRow)
    ensures var r := FindRound(rounds, player.id, week);
      && (row.status == NotDeclared <==> r.None?)
      && (row.status == Submitted <==> r.Some? && r.value.submitted)
      && (row.score.Some? <==> row.status == Submitted)
      && (row.score.Some? ==> row.score.value == r.value.totalScore)
      && (row.locked <==> r.Some? && r.value.locked)
      && (row.canEdit <==> row.status == Submitted && editingRound != Some(EncodeEditKey(player.id, week)))
      && (row.canLock <==> row.canEdit && !row.locked)
  {
    var round := FindByPlayer(WeekRounds(rounds, week), player.id);
    RowRoundIsFindRound(rounds, player.id, week);
    var isEditing := editingRound == Some(EncodeEditKey(player.id, week));
    var status := if round.None? then NotDeclared else if round.value.submitted then Submitted else Pending;
    var shown := round.Some? && round.value.submitted && !isEditing;
    ScoreRow(status,
             if round.Some? && round.value.submitted then Some(round.value.totalScore) else None,
             round.Some? && round.value.locked,
             shown,
             shown && !round.value.locked)
  }

  /** Locking from a row that offers Lock keeps "locked only if submitted". */
  lemma LockFromRowKeepsInvariant(rounds: seq<WeeklyRound>, week: int, editingRound: Option<string>, player: Player)
    requires OnePerPlayerWeek(rounds) && LockedOnlyIfSubmitted(rounds)
    requires Row(rounds, week, editingRound, player).canLock
    ensures LockedOnlyIfSubmitted(LockedRounds(rounds, player.id, week))
  {
    LockSubmittedKeepsInvariant(rounds, player.id, week);
  }

  // ---------------------------------------------------------------------------
  // The component state

  class Dashboard {
    var selectedWeek: int
    var editingRound: Option<string>
    var editScores: map<int, int>

    constructor ()
      ensures selectedWeek == 1 && editingRound == None && editScores == map[]
    {
      selectedWeek := 1;
      editingRound := None;
      editScores := map[];
    }

    method SelectWeek(week: int)
      modifies this`selectedWeek
      ensures selectedWeek == week
    {
      selectedWeek := week;
    }

    /** `handleEditClick`: remembers the round's key and loads its holes, a later hole overwriting. */
    method HandleEditClick(round: WeeklyRound)
      modifies this`editingRound, this`editScores
      ensures editingRound == Some(EncodeEditKey(round.playerId, round.week))
      ensures editScores == HoleMap(round.holeScores)
      ensures Numbered(round.holeScores) ==> NineHoles(editScores) == round.holeScores
    {
      editingRound := Some(EncodeEditKey(round.playerId, round.week));
      var holes := round.holeScores;
      var scoreMap: map<int, int> := map[];
      var i := 0;
      while i < |holes|
        invariant 0 <= i <= |holes|
        invariant scoreMap == HoleMap(holes[..i])
      {
        assert holes[..i + 1][..i] == holes[..i];
        scoreMap := scoreMap[holes[i].holeNumber := holes[i].strokes];
        i := i + 1;
      }
      assert holes[..|holes|] == holes;
      editScores := scoreMap;
      if Numbered(holes) {
        LoadThenSave(holes);
      }
    }

    /** The onChange of an edit input. */
    method HandleEditInput(hole: int, value: string)
      modifies this`editScores
      ensures editScores == old(editScores)[hole := EditInput(value)]
    {
      editScores := editScores[hole := EditInput(value)];
    }

    /** `handleSaveEdit`: sends the nine holes 1..9 (a missing hole as 0) and closes the modal. */
    method HandleSaveEdit(store: League, playerId: string, week: int)
      requires store.Valid()
      modifies this`editingRound, store`rounds
      ensures store.Valid() && editingRound == None
      ensures store.rounds == EditedRounds(old(store.rounds), playerId, week, NineHoles(editScores))
    {
      store.EditScore(playerId, week, NineHoles(editScores));
      editingRound := None;
    }

    /**
     * The Save button, with the key read back at its last '-'. A key without a
     * week reads back as NaN, which matches no round, so the store is left alone.
     */
    method SaveClick(store: League)
      requires store.Valid() && editingRound.Some?
      modifies this`editingRound, store`rounds
      ensures store.Valid() && editingRound == None
      ensures var t := ParseEditKey(old(editingRound).value);
        store.rounds == if t.week.Some? then EditedRounds(old(store.rounds), t.playerId, t.week.value, NineHoles(editScores))
                        else old(store.rounds)
    {
      var target := ParseEditKey(editingRound.value);
      if target.week.Some? {
        HandleSaveEdit(store, target.playerId, target.week.value);
      } else {
        editingRound := None;
      }
    }

    method CancelEdit()
      modifies this`editingRound
      ensures editingRound == None
    {
      editingRound := None;
    }
  }

  /** Edit, then Save unchanged: the round keeps its card, and so does every other round. */
  lemma EditThenSaveKeepsRounds(rounds: seq<WeeklyRound>, k: nat)
    requires RoundsInvariant(rounds) && k < |rounds| && Numbered(rounds[k].holeScores) && rounds[k].week >= 0
    ensures var t := ParseEditKey(EncodeEditKey(rounds[k].playerId, rounds[k].week));
      && t == EditTarget(rounds[k].playerId, Some(rounds[k].week))
      && EditedRounds(rounds, t.playerId, t.week.value, NineHoles(HoleMap(rounds[k].holeScores))) == rounds
  {
    EditKeyRoundTrip(rounds[k].playerId, rounds[k].week);
    LoadThenSave(rounds[k].holeScores);
    EditToSameCardNoChange(rounds, k);
  }
}
