// The records of the league: players, hole scores, weekly rounds and the
// signed-in user, as declared in src/types/index.ts.
module Types {

  /** An optional value: `undefined`/`null` in the source is `None`. */
  datatype Option<+T> = None | Some(value: T)

  datatype Player = Player(
    id: string,
    username: string,
    email: string,
    name: string,
    isCommissioner: bool,
    buyInPaid: bool)

  datatype HoleScore = HoleScore(holeNumber: int, strokes: int)

  /** One player's round for one week. Timestamps are opaque strings. */
  datatype WeeklyRound = WeeklyRound(
    id: string,
    playerId: string,
    week: int,
    declared: bool,
    declaredAt: Option<string>,
    holeScores: seq<HoleScore>,
    totalScore: int,
    submitted: bool,
    submittedAt: Option<string>,
    photoUrl: Option<string>,
    locked: bool)

  datatype AuthUser = AuthUser(id: string, username: string, email: string, isCommissioner: bool)
}
