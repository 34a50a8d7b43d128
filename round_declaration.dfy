// The declaration step of src/components/RoundDeclaration.tsx: a player
// declares a round for an active week before playing it.
module RoundDeclaration {
  import opened Types
  import opened LeagueStore

  const WEEKS_LISTED: int := 6

  /** `weekRound?.declared || false` for the signed-in user and the selected week. */
  predicate IsDeclared(rounds: seq<WeeklyRound>, user: Option<AuthUser>, week: int)
  {
    var weekRound := FindUserRound(rounds, user, week);
    weekRound.Some? && weekRound.value.declared
  }

  /** What the component renders under the week selector. */
  datatype DeclarationView = NotStarted | AlreadyDeclared | DeclareButton

  function View(rounds: seq<WeeklyRound>, activeWeeks: seq<int>, user: Option<AuthUser>, week: int): (v: DeclarationView)
    ensures v == DeclareButton <==> week in activeWeeks && !IsDeclared(rounds, user, week)
    ensures v == NotStarted <==> week !in activeWeeks
    ensures v == AlreadyDeclared <==> week in activeWeeks && IsDeclared(rounds, user, week)
  {
    if week !in activeWeeks then NotStarted
    else if IsDeclared(rounds, user, week) then AlreadyDeclared
    else DeclareButton
  }

  /** An option of the week selector: the week and whether it is labelled "(Open)". */
  datatype WeekOption = WeekOption(week: int, open: bool)

  function WeekOptions(activeWeeks: seq<int>): (opts: seq<WeekOption>)
    ensures |opts| == WEEKS_LISTED
    ensures forall i :: 0 <= i < |opts| ==> opts[i].week == i + 1
    ensures forall i :: 0 <= i < |opts| ==> (opts[i].open <==> i + 1 in activeWeeks)
  {
    seq(WEEKS_LISTED, i requires 0 <= i < WEEKS_LISTED => WeekOption(i + 1, i + 1 in activeWeeks))
  }

  /** `handleDeclare`: declares for the signed-in user and reports the week; does nothing signed out. */
  method HandleDeclare(store: League, week: int, now: string) returns (reported: Option<int>)
    requires store.Valid()
    modifies store`rounds, store`cloudWrites
    ensures store.Valid()
    ensures store.currentUser.None? ==> reported.None? && unchanged(store)
    ensures store.currentUser.Some? ==>
      && reported == Some(week)
      && store.rounds == DeclaredRounds(old(store.rounds), store.currentUser.value.id, week, now)
      && store.cloudWrites == old(store.cloudWrites) +
           if |store.rounds| == |old(store.rounds)| then [] else [RoundWrite(NewRound(store.currentUser.value.id, week, now))]
  {
    if store.currentUser.None? {
      return None;
    }
    store.DeclareRound(store.currentUser.value.id, week, now);
    reported := Some(week);
  }

  /**
   * Declaring from the button adds exactly one round, after which the week
   * shows as declared.
   */
  lemma DeclareFromButton(rounds: seq<WeeklyRound>, activeWeeks: seq<int>, user: AuthUser, week: int, now: string)
    requires AllDeclared(rounds)
    requires View(rounds, activeWeeks, Some(user), week) == DeclareButton
    ensures var after := DeclaredRounds(rounds, user.id, week, now);
      && |after| == |rounds| + 1
      && after[|rounds|] == NewRound(user.id, week, now)
      && View(after, activeWeeks, Some(user), week) == AlreadyDeclared
  {
    var after := DeclaredRounds(rounds, user.id, week, now);
    assert FindRound(after, user.id, week).Some?;
    var found := FindRound(after, user.id, week).value;
    var j :| 0 <= j < |after| && after[j] == found;
  }
}
